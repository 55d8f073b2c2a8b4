# Verification of the concurrency and budget core

A Dafny 4.11 model of the parts of this repository that are hardest to get right by testing: the
cross-process lock protocol and the read-modify-write protocols above it, the pull-request nudges of
the Hermes bridge, a handful of algorithms with a simple specification, and the bounded builders.
`dafny verify dfyconfig.toml` checks everything.

## What is modelled

**Locks.** `Guard` is the mutation guard of `src/claude/atomic.ts` as a machine whose steps are
single file-system calls: prepare a candidate directory, rename it over the guard name (which
succeeds only on an absent or empty target), list it, unlink a dead owner's entry, remove it. Any
number of processes interleave, and any of them may die before any step. Three locks are machines on
top of that one: `LeaseMachine` (`withFileLock`, with `updateSession` inside: tokens, expiry, stale
reclaim, running unlocked when the lock cannot be had), `LastMachine` (`withLastLock`: pid, inode,
the `!` completion marker) and `HookLock` (the installers' pid-and-token lock). `LeaseLock` and
`LastLock` state what every run of the first two keeps; `EarlyRead` is one such run. `GuardProgress`,
`LeaseProgress`, `LastProgress` and `HookProgress` say what one client gets done when nobody disturbs it,
from every reachable state, and what a second one finds after a crash. `LockWait` is the waiting of `acquire` and `release` against a clock that
only their own sleeps advance.

**Read-modify-write.** `HookEntries` is what the two installers do to the hook list, over any
sequence of operations, with the shell quoting of the commands they write; `HookCommit` is the
compare-and-swap commit with other writers at every gap and a file system that may fail at every call,
inside the staging and the restore of both installers. `UserAnswers` is `applyAnswers`: which question
gets which text. `PlanRecord` is the overlay of late answers in `savePlanRecord`, joined to the lease
lock: an answer is followed from the locked update that folded it in to the record after the save.

**Bridge.** `PrNudges` has the module-level state of `hosts/hermes/bridge.py` as a class, and the
hooks of any number of threads as steps, one for each section under `_pr_lock`; `PrHistory` tells from the
calls alone which events are accepted and when the sync nudge is given. `QuickMarkers` does
the same for `/ultrathink-quick`.

**Algorithms.** `EditDistance` (the two-row loop against the least number of edits), `Spdx` (the
recursive-descent parser against its grammar, with a minimal printer), `QuoteScanner` (which slash
commands a prompt really invokes), `Digest` (the knowledge digest, written and read back).

**Bounded builders.** `Handoff` (`fitHandoff`, `truncateXml`), `StageBlock` (`buildBlock`),
`Clarifications` (both clarify passes), `Decision` (`postDecision`), `Shutdown` (`createShutdown`).

`Base` and `Hitl` hold the types and string functions they share. Text is a sequence of characters;
where the source counts UTF-16 code units, a character stands for one unit. Owner names, tokens and
inodes are unique, a process that died stays dead, and all processes share one clock that never goes
back.

## Where the code and its promise part

Each of these is stated as a lemma with a concrete case, and the exact condition is proved beside it.

- `acquire` with `pollMs` 0 and time to wait never sleeps, so against a clock that only sleeping
  advances it never stops (`LockWait.AcquireStopsIff`).
- `parseSpdx` accepts `(MIT) WITH x`, which Annex D.4.5 of the SPDX Specification 2.3 does not
  (`Spdx.AcceptedIsSpdxIff`).
- Two free-form replies are stored under the same question; a plan that asks it keeps only the later
  one (`PlanRecord.LateAnswerSurvivesIff`).
- An entry whose command names both installers' hook files belongs to both, so either one's install or
  remove takes it (`HookEntries.OpSparesTheOtherIff`). The installers write such an entry exactly when
  the path of node or of the Cursor directory contains the other's file name, and then the second
  install takes the first one's entry away (`HookEntries.SecondInstallKeepsTheFirstIff`); a Cursor
  directory of that name is the case (`HookEntries.SharedNameLosesAnEntry`).
- The pstack installer puts its script back after a failed copy or a refused commit, but not when the
  commit itself throws, and not when the restore fails before it touched the script: then the install
  ends with the new script staged and no entry written (`HookCommit.ScriptWithoutEntryIff`; the cases
  are a failing rename, `HookCommit.FailedRenameLeavesTheScript`, and a failing restore after three
  attempts that found the file changed, `HookCommit.FailedRestoreLeavesTheScript`). The planner
  installer restores after every failure, and a restore that fails as well it only logs
  (`HookCommit.PstackRestoresIff`, `HookCommit.PlannerRestoresIff`).
- `truncateXml` can exceed `maxChars`: exactly when that is below the marker and whatever else must
  stay (`Handoff.TruncateKeepsTheBoundIff`); any bound up to 36 characters is a case
  (`Handoff.SmallBoundIsExceeded`).
- `postDecision` with a budget under one millisecond still waits one (`Decision.BudgetIsKeptIff`).
- `createShutdown` remembers its run only when the first synchronous stretch is over: a shutdown asked
  for inside `beginDrain` (or, without a drain time, inside `server.stop` or `app.shutdown`) starts a
  second run, and the process exits twice (`Shutdown.OneRunIff`).
- A message typed by somebody while the same text waits as a quick one takes its marker
  (`QuickMarkers.TypedCopyTakesTheMarker`), and so does a quick message that arrives under a sender
  tag as the text of another one: with `hi` and `[bob] hi` both waiting the second one can end up
  planned although nobody typed anything (`QuickMarkers.ArrivalTakesAnothersMarker`). Every marker is
  in its place throughout a run exactly when neither happens (`QuickMarkers.MarkersAreConservedIff`);
  where no message arrives as another, all turns are judged rightly exactly when nobody types a
  waiting one (`QuickMarkers.RunIsRightIff`).

## Model

| member | source | states |
|---|---|---|
| `Guard.MutualExclusion` | src/claude/atomic.ts:164-201 | in every interleaving with crashes anywhere, at most one live process is inside `fn` |
| `Guard.GuardHoldsOneClaim` | src/claude/atomic.ts:100-134 | the guard directory is always absent, empty, or holds one entry, of a call that claimed it |
| `Guard.LiveEntryIsSafe` | src/claude/atomic.ts:115-134 | however long a recovery was delayed since it read the guard, a live owner's entry goes only by the owner's own unlink |
| `Guard.LiveCandidateIsSafe` | src/claude/atomic.ts:137-157 | a live call's candidate directory is never changed or removed by anyone else, sweeps of dead candidates included |
| `Guard.SoloClaim` | src/claude/atomic.ts:164-201 | a free guard is claimed by the first rename |
| `Guard.SoloTakeover` | src/claude/atomic.ts:125-134 | a guard left by a dead owner is taken over within one undisturbed call |
| `Guard.SoloRefused` | src/claude/atomic.ts:164-201 | a guard held by a live owner is left exactly as it is |
| `GuardProgress.Enters` | src/claude/atomic.ts:164-201 | with nobody alive in the guard, an undisturbed call gets into `fn`, from the empty candidate on |
| `GuardProgress.Leaves` | src/claude/atomic.ts:189-201 | a call whose `fn` returned leaves the guard absent |
| `GuardProgress.BacksOut` | src/claude/atomic.ts:192-200 | a call that did not get in removes its own candidate directory, and nothing else |
| `GuardProgress.FailedBackoutLeavesTheCandidate` | src/claude/atomic.ts:192-200 | one whose candidate cannot be emptied leaves it behind and still reports that it did not get in |
| `GuardProgress.FailuresEndTheCall` | src/claude/atomic.ts:164-201 | from any point outside `fn`, at most four failing calls end the call of withLockMutation; only its own place has changed, and it reports a result only if `fn` had run |
| `GuardProgress.Sweeps` | src/claude/atomic.ts:137-157 | an undisturbed sweep removes a dead owner's candidate directory, and nothing else |
| `LeaseLock.TokenIsSafe` | src/claude/atomic.ts:206-280 | even after a lease expired, a lock with one client's token changes only by that client's release or by a reclaim past staleMs |
| `LeaseLock.RecordChangesWhole` | src/claude/atomic.ts:43-74 | a crash at any step leaves the complete old or the complete new record |
| `LeaseLock.LockStepsAreExclusive` | src/claude/atomic.ts:206-280 | steps on the lock file by live clients never overlap |
| `LeaseLock.CallbacksNeverOverlap` | src/claude/atomic.ts:287-296 | two callbacks never overlap while no live holder outlives its lease and nobody ran unlocked |
| `LeaseLock.Serializable` | src/claude/state.ts:348-367 | session updates are serializable: the record is the fold, in lock order, of exactly the mutations whose rename happened |
| `LeaseLock.IncrementsSumExactly` | src/claude/state.ts:348-367 | a counter incremented under the lock grows by exactly the number of commits |
| `LeaseLock.FoldCounts` | src/claude/state.ts:348-367 | the fold of any replayable ledger counts its commits |
| `LeaseProgress.AcquiresFree` | src/claude/atomic.ts:217-243 | from every reachable state, an undisturbed acquire over an absent lock ends with the client's token in the file and its callback running |
| `LeaseProgress.AcquiresStale` | src/claude/atomic.ts:206-258 | an undisturbed acquire over a lock older than staleMs reclaims it, and its next attempt ends with its own token in the file |
| `LeaseProgress.WaitsForFresh` | src/claude/atomic.ts:206-258 | an acquire that finds the lock no older than staleMs leaves it as it is and goes on waiting |
| `LeaseProgress.ReleasesItsOwn` | src/claude/atomic.ts:260-280 | an undisturbed release by a client whose token is in the file ends with no lock |
| `LeaseProgress.LeavesAnothers` | src/claude/atomic.ts:260-280 | a release that finds no lock or another token leaves it as it is |
| `LeaseProgress.FailedTokenIsUndone` | src/claude/atomic.ts:228-243 | a client whose token cannot be written removes its new lock and runs its callback unlocked |
| `LeaseProgress.CallbackWrites` | src/claude/state.ts:348-367 | an undisturbed callback puts its mutation of the record in place and goes on to its release, or ends if it ran unlocked |
| `LeaseProgress.CallbackWritesNothing` | src/claude/state.ts:348-367 | a mutation that gives nothing to write leaves the record as it is |
| `LeaseProgress.CrashedHolderIsReplaced` | src/claude/atomic.ts:206-258 | a complete run: a client takes the lock and dies, and another one takes it over once it is stale |
| `LockWait.Acquire` | src/claude/atomic.ts:217-258 | returns at the first decisive report; otherwise only after timeoutMs and before timeoutMs + 2*pollMs |
| `LockWait.Release` | src/claude/atomic.ts:260-280 | at most 1,000 attempts, stops at the first decisive one or once timeoutMs passed, by less than one sleep |
| `LockWait.AcquireStopsIff` | src/claude/atomic.ts:217-258 | acquire stops in every world if and only if pollMs is at least 1 or there is no time to wait |
| `LockWait.NoPollNeverStops` | src/claude/atomic.ts:217-258 | the failing family: with pollMs 0 against a busy lock no number of rounds ends the wait |
| `LockWait.RunningTakesTime` | src/claude/atomic.ts:217-258 | past the 1,000 immediate retries every further round takes time |
| `LockWait.TimeIsPauses` | src/claude/atomic.ts:217-258 | while acquire runs, the time gone is exactly its pauses: none after the first 1,000 reclaimed names, else a poll with its jitter |
| `LastLock.BodiesNeverOverlap` | src/claude/state.ts:270-322 | bodies of live processes never overlap, whatever the delays |
| `LastLock.BodyOwnsTheLock` | src/claude/state.ts:270-322 | the body never runs without the lock: throughout it the name refers to the holder's inode and pid |
| `LastLock.OnlyUnheldIsUnlinked` | src/claude/state.ts:270-322 | cleanup unlinks only the holder's own inode, and a reclaim only one that protects nobody; never a successor's |
| `LastLock.LiveHolderIsHeld` | src/claude/state.ts:240-262 | while its holder lives and has not finished, a lock is judged held |
| `LastLock.MarkerStays` | src/claude/state.ts:270-322 | in every run after a holder marked its lock, its inode still carries the marker |
| `LastLock.MarkedIsNeverHeld` | src/claude/state.ts:240-262 | a finished holder's leftover lock is never judged held: whoever reads it at any time after the marker finds it free, whatever happens before the judgement |
| `LastLock.MarkedIsRead` | src/claude/state.ts:240-262 | a read of such a lock always goes on to that judgement |
| `LastLock.EarlierReadMayBeHeld` | src/claude/state.ts:240-262 | the promise begins with the marker: a pid read before it is still judged held after it |
| `EarlyRead.EarlierReadHappens` | src/claude/state.ts:240-322 | a complete run in which this happens, from the first arrival to the late judgement |
| `LastProgress.TakesIffUnprotected` | src/claude/state.ts:240-300 | an undisturbed client gets the lock if and only if the file names no live process or has been empty for more than 5 s; then it holds the client's own pid, else it stays as it is |
| `LastProgress.RemovesItsOwn` | src/claude/state.ts:308-322 | an undisturbed removal unlinks the name if and only if it still refers to the client's own file |
| `LastProgress.FailedWriteIsUndone` | src/claude/state.ts:270-300 | a client whose pid cannot be written takes its new file away again |
| `LastProgress.EmptyLockIsTaken` | src/claude/state.ts:240-300 | a complete run: a client dies between creating the file and writing its pid, and another one takes the lock exactly when more than 5 s have gone by |
| `LastMachine.MarkedNamesNobody` | src/claude/state.ts:240-322 | any text with `!` over its first byte names no process |
| `LastMachine.DigitsNameThePid` | src/claude/state.ts:240-322 | the decimal text of a pid reads back as that pid |
| `HookLock.BodiesNeverOverlap` | scripts/cursor-hooks.ts:309-364 | installs and removes of live processes never overlap, whatever the delays |
| `HookLock.HolderOwnsTheLock` | scripts/cursor-hooks.ts:309-347 | until it removes it, a live holder's whole payload is in the lock file |
| `HookLock.OnlyOwnOrDeadIsUnlinked` | scripts/cursor-hooks.ts:260-302 | the lock file goes only by its writer's hand or when it names nobody alive |
| `HookLock.LiveHolderIsBusy` | scripts/cursor-hooks.ts:260-280 | while its holder lives the lock is judged busy, and the empty file of a slow creator is never up for judgement |
| `HookProgress.TakesIffLeftBehind` | scripts/cursor-hooks.ts:260-347 | an undisturbed installer gets the lock if and only if the file is absent, names a dead process or has named none for a second; then it holds its own payload, else it stays as it is |
| `HookProgress.RemovesItsOwn` | scripts/cursor-hooks.ts:283-302 | an undisturbed removal removes the file if and only if it still holds the installer's payload |
| `HookProgress.FailedWriteIsUndone` | scripts/cursor-hooks.ts:322-340 | an installer whose payload cannot be written removes its new file again |
| `HookProgress.FailedUndoLeavesTheFile` | scripts/cursor-hooks.ts:322-340 | a payload that can be neither written nor taken away leaves a file that names nobody |
| `HookProgress.ErrorAfterLooking` | scripts/cursor-hooks.ts:260-347 | an error after the first look fails the install if no file was there, and is a busy lock otherwise; the file stays |
| `HookProgress.ErrorInRemoval` | scripts/cursor-hooks.ts:282-302 | an error in the removal ends it with the file as it is |
| `HookProgress.TornPayload` | scripts/cursor-hooks.ts:260-347 | a complete run: an installer dies while it writes its payload; the next one takes the lock if the part written names the dead process, or names none and is a second old, and waits otherwise |
| `HookEntries.AnySequence` | scripts/cursor-hooks.ts:98-147 | over any sequence of both installers' operations foreign entries keep content and order, and each installer is left with its own last word |
| `HookEntries.OpEffect` | scripts/cursor-plugin.ts:107-147 | one operation leaves every disjoint kind of entry untouched and the installer with exactly one entry, or none |
| `HookEntries.OtherIsUntouched` | scripts/cursor-plugin.ts:107-147 | neither installer touches the other's entries when none is shared |
| `HookEntries.RepeatWritesNothing` | scripts/cursor-hooks.ts:122-147 | a repeated operation writes nothing; an operation is refused exactly for a file whose top, hooks object or event is of the wrong kind; one that writes nothing says whether an entry is there |
| `HookEntries.NewFileHoldsTheEntry` | scripts/cursor-hooks.ts:105-138 | without a file the first install makes one that holds its entry and nothing else |
| `HookEntries.InstallKeepsItsPlace` | scripts/cursor-hooks.ts:122-137 | an install writes over the installer's first entry, with everything before it untouched, or at the end when it has none |
| `HookEntries.OtherKeysStay` | scripts/cursor-hooks.ts:106-147 | every other key of the file and every other event's hooks are as they were |
| `HookEntries.MalformedStays` | scripts/cursor-hooks.ts:106-120 | no sequence of operations writes a malformed file |
| `HookEntries.OpSparesTheOtherIff` | scripts/cursor-hooks.ts:98-147 | an install or remove leaves the other's entries alone if and only if no entry is owned by both |
| `HookEntries.WantedIsCleanIff` | scripts/cursor-hooks.ts:88-104 | an installed entry belongs to its installer, and to it alone if and only if neither the path of node nor the Cursor directory contains the other's file name |
| `HookEntries.SecondInstallKeepsTheFirstIff` | scripts/cursor-hooks.ts:88-135 | after both installs into one Cursor directory the first one's entry is there if and only if neither path contains the second one's file name |
| `HookEntries.SharedNameLosesAnEntry` | scripts/cursor-plugin.ts:100-137 | the failing case: under `/home/u/ultrathink-cursor-plan.js` the planner's install takes the pstack entry away |
| `HookEntries.OpKeepsSeparate` | scripts/cursor-hooks.ts:122-147 | clean operations never create an entry owned by both |
| `HookCommit.CommitsAreLinear` | scripts/cursor-hooks.ts:164-209 | without any lock, the file is always what edits and committed operations give one after another |
| `HookCommit.EditStands` | scripts/cursor-hooks.ts:164-191 | an edit between an installer's read and its swap stands, and the merge of the older bytes is dropped |
| `HookCommit.CommitsRunTheOps` | scripts/cursor-plugin.ts:206-220 | with no other writer the commits are the sequence of operations in commit order |
| `HookCommit.LastWordsStand` | scripts/cursor-plugin.ts:206-220 | any interleaving of both installers' clean operations leaves foreign entries as they were and of each installer exactly its last committed word |
| `HookCommit.CursorDir.WriteIfUnchanged` | scripts/cursor-hooks.ts:164-191 | writes exactly when the bytes are still the merged ones at both checks and nothing fails; a failed first read counts as changed, any later failure is rethrown |
| `HookCommit.CursorDir.Commit` | scripts/cursor-hooks.ts:193-209 | the loop of three attempts computes the commit: how it ends, the file it leaves and the moments that passed |
| `HookCommit.CommitIsFaithful` | scripts/cursor-hooks.ts:164-209 | whatever other writers do and wherever the file system fails, a write replaces exactly the bytes it merged, and without one the file is as the others left it |
| `HookCommit.CommitThrowsIff` | scripts/cursor-hooks.ts:164-209 | a commit throws if and only if an attempt whose bytes still match fails at its temporary file or rename, after attempts that all found them changed |
| `HookCommit.CommitIsARun` | scripts/cursor-hooks.ts:193-209 | the attempts of a commit are read and swap steps of the machine, whatever steps of others come between them, with the same file and, when it wrote, its operation as the last event |
| `HookCommit.LoopHasLastWord` | scripts/cursor-plugin.ts:206-220 | after any clean run of both installers, a commit among more of their steps that says it wrote leaves its installer exactly the entry it installed, or none, and foreign entries as they were |
| `HookCommit.CursorDir.InstallPstack` | scripts/cursor-hooks.ts:427-454 | staging, commit and restore, in place, compute the pstack install |
| `HookCommit.CursorDir.InstallPlanner` | scripts/cursor-plugin.ts:423-456 | staging, commit and restore, in place, compute the planner install |
| `HookCommit.InstalledIff` | scripts/cursor-hooks.ts:413-454 | an install succeeds if and only if the file can be read and shaped beforehand, the staging works, and the commit wrote or had nothing to write |
| `HookCommit.InstalledIsRegistered` | scripts/cursor-plugin.ts:423-460 | an install that reports success left its script staged and an entry that repeating it would not change |
| `HookCommit.UnfinishedWritesNoEntry` | scripts/cursor-plugin.ts:206-220 | an install that does not succeed never wrote hooks.json, nor put back what others had replaced: the file is as they had left it at some moment since, and a refused one changes nothing |
| `HookCommit.ScriptWithoutEntryIff` | scripts/cursor-hooks.ts:431-454 | a pstack install ends unfinished with the new script staged if and only if it was not refused beforehand and either the copy worked and the commit threw, or the copy or the commit failed and so did the restore, with the new script still there |
| `HookCommit.FailedRenameLeavesTheScript` | scripts/cursor-hooks.ts:164-191 | the failing case: the first rename fails, and the script stays without an entry |
| `HookCommit.FailedRestoreLeavesTheScript` | scripts/cursor-hooks.ts:212-218 | the other failing case: the file changes under all three attempts, the restore fails, and the script stays although nothing threw in the commit |
| `HookCommit.PstackRestoresIff` | scripts/cursor-hooks.ts:431-454 | a failed pstack install leaves the script as it was if and only if nothing was staged, or the restore ran and gave it back; it does not run after a thrown commit |
| `HookCommit.PlannerRestoresIff` | scripts/cursor-plugin.ts:423-456 | a failed planner install leaves both files as they were if and only if nothing was staged or the restore gave both back |
| `UserAnswers.ApplyAnswers` | src/hitl/answers.ts:72-138 | the in-place loop computes the folded list, and returns the matched items as they stand in it |
| `UserAnswers.FoldedIsSound` | src/hitl/answers.ts:43-138 | no answer drops, moves or rewords a stored question; exactly the matched ones change, each to a non-empty user answer |
| `UserAnswers.AnswersAreStored` | src/hitl/answers.ts:43-138 | each entry with text goes to the first item with the same normalized question, else to the first that contains it or is contained in it, else to a new item in the asked words; an item holds the text of the last entry that went to it; the free-form reply goes to the first asked question that awaits an answer, else to a new item |
| `UserAnswers.TextIsStored` | src/hitl/answers.ts:104-119 | a plain text answers the one asked question that is still open, at its place, and is a new item when none or several are |
| `PlanRecord.Overlay` | src/claude/hook.ts:170-211 | the overlay loop computes the saved list |
| `PlanRecord.ByQuestion` | src/claude/hook.ts:170-211 | the map of late answers holds, for each normalized question, the last one stored |
| `PlanRecord.BaseKeepsItsPlace` | src/claude/hook.ts:170-211 | planned questions keep their places, as planned or as the stored answer to the same question |
| `PlanRecord.WhatIsSaved` | src/claude/hook.ts:170-211 | the whole saved list: each planned question in its place, as the last late answer to it or as planned; then the late answers to other questions, in stored order, each once |
| `PlanRecord.LateAnswerSurvivesIff` | src/claude/hook.ts:170-211 | a stored answer is saved if and only if the plan does not ask its question or every later stored answer to that question is equal to it |
| `PlanRecord.NoLateAnswerIsLost` | src/claude/hook.ts:170-211 | with pairwise distinct stored questions no late answer is lost |
| `PlanRecord.SecondFreeFormHidesTheFirst` | src/hitl/answers.ts:72-138 | the failing case: two free-form replies, and the text of the first one is gone from the saved record |
| `PlanRecord.AnswerStays` | src/claude/state.ts:348-367 | an answer folded in by one locked update is still there, answered by a user, after any number of further updates, with the same text unless one of them answered it again |
| `PlanRecord.StoredAnswersAreSaved` | src/claude/hook.ts:170-211 | a save over distinct stored questions keeps every late answer of the record it finds |
| `PlanRecord.AnswersSurviveTheSave` | src/claude/hook.ts:170-211 | in any interleaving, an answer folded in by a locked update before the save is in the record after it: the same question, answered by a user, with the same text unless a later update answered it again |
| `PrNudges.Bridge.PrToolResult` | hosts/hermes/bridge.py:584-604 | changes nothing on a non-text result; a child's PR is queued for its parent; any other accepted event is shown now unless it was shown before |
| `PrNudges.Bridge.QueuePrNudge` | hosts/hermes/bridge.py:607-616 | an accepted event is queued unless it was shown, and becomes the plan's latest; anything else leaves only its proof |
| `PrNudges.Bridge.TakeNudges` | hosts/hermes/bridge.py:619-626 | hands out what is pending and undelivered, and leaves nothing pending |
| `PrNudges.Bridge.SyncNudgeHook` | hosts/hermes/bridge.py:643-676 | the once-per-plan section and the URL it names |
| `PrNudges.PutKeepsPlaces` | hosts/hermes/bridge.py:576-581 | a URL that waits already keeps its place with the new nudge, another one joins at the end |
| `PrNudges.UndeliveredInOrder` | hosts/hermes/bridge.py:619-626 | the nudges handed out stand in the order of the queue |
| `PrHistory.AcceptedIff` | hosts/hermes/bridge.py:524-573 | a call naming a session and a URL is accepted if and only if its owner has a planned graph and it is no delegate result, or a child opened that URL under that graph; the owner is the parent last noted for the session, else the session; the nudge names the URL and that graph |
| `PrHistory.OwnEventIsShown` | hosts/hermes/bridge.py:584-604 | an accepted event that is no child's is shown at once in its text result, unless that (session, URL) was shown before |
| `PrHistory.OtherEventWaits` | hosts/hermes/bridge.py:576-616 | any other accepted event waits for the next turn with its own nudge, unless it was shown before |
| `PrHistory.EventIsTwoSteps` | hosts/hermes/bridge.py:543-573 | the one-call form of the event is the two sections with nobody between them |
| `PrNudges.ShownAtMostOnce` | hosts/hermes/bridge.py:512-626 | over every interleaving each (session, PR URL) is shown to the model at most once |
| `PrNudges.AcceptedIsShownOrPending` | hosts/hermes/bridge.py:543-626 | no accepted event is lost: it was shown or still waits |
| `PrNudges.NextTurnDrains` | hosts/hermes/bridge.py:619-626 | the next turn leaves nothing pending, and every accepted event of the session was then shown exactly once |
| `PrNudges.DelegateNudgesAreProven` | hosts/hermes/bridge.py:543-573 | a delegate result or a child's PR nudges only for a URL a child opened under the same graph |
| `PrNudges.SyncNudgeOncePerPlan` | hosts/hermes/bridge.py:643-676 | the sync nudge is given once per plan and names only an accepted URL |
| `PrHistory.SyncNudgesFirstTime` | hosts/hermes/bridge.py:643-676 | a plan's sync nudge is given if and only if it was never asked for before, with the URL last named for that plan, or none |
| `QuickMarkers.Markers.TakeQuick` | hosts/hermes/bridge.py:720-731 | the dictionary section takes one marker of the prompt, else of the prompt without its sender tag |
| `QuickMarkers.MarkersAreConservedIff` | hosts/hermes/bridge.py:720-750 | over every interleaving there is at every moment one marker for each message still asked for or still to come, if and only if no step types a waiting text and no message arrives under a tag as another waiting one |
| `QuickMarkers.RunIsRightIff` | hosts/hermes/bridge.py:720-750 | over every run in which no message arrives as another, every turn is left unplanned exactly when it was injected, if and only if no step types a waiting text |
| `QuickMarkers.RightRunsTypeNoWaiting` | hosts/hermes/bridge.py:720-750 | on every run whatever, a typed waiting text is judged wrongly |
| `QuickMarkers.TurnTakesItsOwnFirst` | hosts/hermes/bridge.py:720-731 | a typed turn takes a marker exactly when one waits for its prompt or its untagged form; its own goes first, and nothing else changes |
| `QuickMarkers.RefusedTakesItsMarkerBack` | hosts/hermes/bridge.py:734-750 | a command whose message is refused takes its own marker back |
| `QuickMarkers.ArrivalTakesAnothersMarker` | hosts/hermes/bridge.py:720-731 | the failing case without a typed message: one quick message takes another's marker, and the other is planned |
| `QuickMarkers.TypedCopyTakesTheMarker` | hosts/hermes/bridge.py:720-731 | the failing case: a typed copy takes the marker of the injected one |
| `EditDistance.Distance` | src/doctor/config-check.ts:31-49 | the two-row loop returns the recursive distance, and a row is never built short |
| `EditDistance.LevIsLeast` | src/doctor/config-check.ts:31-49 | the recursive distance is the least number of insertions, deletions and replacements |
| `EditDistance.LevTriangle` | src/doctor/config-check.ts:31-49 | the triangle inequality; with the next two rows, the distance is a metric |
| `EditDistance.LevIsZeroIff` | src/doctor/config-check.ts:31-49 | only equal strings have distance 0 |
| `EditDistance.LevIsSymmetric` | src/doctor/config-check.ts:31-49 | the distance does not depend on the order of the two strings |
| `EditDistance.SharedPrefix` | src/doctor/config-check.ts:51-56 | the length of the longest common prefix |
| `EditDistance.SuggestName` | src/doctor/config-check.ts:58-72 | the eligible candidate least by distance, then greatest by shared prefix, then first; none exactly when none is eligible |
| `Spdx.Parser.Run` | scripts/security-gate.ts:302-357 | the position-advancing parser computes the parse function and reads every token it accepts |
| `Spdx.AcceptsExactlyTheGrammar` | scripts/security-gate.ts:302-357 | a tree comes back exactly for the token lists the grammar derives, and it is the derivation's tree |
| `Spdx.OneDerivation` | scripts/security-gate.ts:302-357 | the grammar, with AND tighter than OR, is unambiguous |
| `Spdx.AcceptedIsSpdxIff` | scripts/security-gate.ts:302-357 | an accepted list is an SPDX expression if and only if no WITH follows a parenthesis |
| `Spdx.SpdxIsAccepted` | scripts/security-gate.ts:302-357 | every SPDX expression is accepted, with its own tree |
| `Spdx.ParenthesizedExceptionIsAccepted` | scripts/security-gate.ts:302-357 | the failing case: `(id) WITH exception` parses |
| `Spdx.PrintThenParse` | scripts/security-gate.ts:302-357 | printing any license tree and parsing it gives the same tree |
| `Spdx.PrintIsShortest` | scripts/security-gate.ts:302-357 | no accepted token list with the same tree is shorter than the printed one |
| `Spdx.AllowedIffSomeChoice` | scripts/security-gate.ts:359-369 | a tree is allowed exactly when some choice of its licenses is inside the allow list |
| `Spdx.AllowedIsMonotone` | scripts/security-gate.ts:371-374 | a longer allow list never turns an allowed expression away, and never changes what parses |
| `QuoteScanner.WithoutQuotedCommands` | src/cursor/pstack.ts:157-228 | same length; the prompt is covered by fences, spans, quotes and plain characters, and only the blanked ones change |
| `QuoteScanner.OneReading` | src/cursor/pstack.ts:157-228 | a prompt has only one such covering |
| `QuoteScanner.OnlyBlanks` | src/cursor/pstack.ts:157-228 | a character changes exactly inside a blanked piece, to a space, and never when it is a line break |
| `QuoteScanner.Invocations` | src/cursor/pstack.ts:235-243 | finds, in order, exactly the commands at the start of a line of the blanked text |
| `QuoteScanner.CommandInvocations` | src/cursor/pstack.ts:235-243 | the commands found are exactly the typed ones outside every example, as their original text at their own place |
| `QuoteScanner.DetectedIsTyped` | src/cursor/pstack.ts:196-243 | a detected command is the original text, preceded on its line only by blanks or blanked spans |
| `QuoteScanner.TypedIsDetected` | src/cursor/pstack.ts:196-243 | no typed command is missed |
| `QuoteScanner.DetectStage` | src/cursor/pstack.ts:250-270 | no stage exactly when no command is mapped; orchestrate exactly when it is asked for; else the first mapped one |
| `QuoteScanner.StagesOfCommands` | src/cursor/pstack.ts:52-58 | which commands belong to which stage, and that any other is of none |
| `StageBlock.BuildBlock` | src/cursor/pstack.ts:306-356 | the block fits; it names the longest prefix of the resolvable skills that fits; no skill goes while the note is shown; no block only when no skill fits |
| `StageBlock.MoreRoomMoreSkills` | src/cursor/pstack.ts:306-356 | a larger cap never yields fewer skills |
| `StageBlock.LinesOfABlock` | src/cursor/pstack.ts:306-356 | a block is its header, the instruction, one line for each skill in order, the note and the omission |
| `StageBlock.LineNamesTheSkill` | src/cursor/pstack.ts:331-336 | a skill's line gives its stage, name, path, purpose and moment, in this order and whole |
| `StageBlock.LineNamesTheMissing` | src/cursor/pstack.ts:312-324 | what is said of a missing skill is its stage, its name and the reason, in this order |
| `StageBlock.CountsAreShown` | src/cursor/pstack.ts:329-353 | the short note and the omission say how many skills they stand for |
| `StageBlock.NoteStartsInFull` | src/cursor/pstack.ts:306-356 | when every skill fits with the note of missing ones in full, that is the block |
| `StageBlock.NamesArePlaced` | src/cursor/pstack.ts:312-324 | every mapped skill is either an entry or in the note, once |
| `Digest.BuildDigest` | src/greptile/knowledge.ts:205-225 | never longer than the limit, and nothing in it can close the element it is wrapped in |
| `Digest.FairShareIsWhole` | src/greptile/knowledge.ts:215-222 | a document whose section fits an even split of the room is written whole, whatever the others hold |
| `Digest.EvenSplitIsWhole` | src/greptile/knowledge.ts:215-222 | a document of which as many as there are left would fit is written whole |
| `Digest.IndexComesFirst` | src/greptile/knowledge.ts:215-222 | index.md comes first with at most 8,000 characters and a third of the limit, whole when it fits those; the others follow in order |
| `Digest.ShareGrows` | src/greptile/knowledge.ts:222-222 | what one document leaves of its share goes to the later ones |
| `Digest.InOrder` | src/greptile/knowledge.ts:194-222 | the sections follow the documents' order, each its document whole or its beginning with the mark |
| `Digest.NoTagLeft` | src/greptile/knowledge.ts:223-224 | after the swap no closing tag stands anywhere, in any letter case |
| `Digest.SwapSections` | src/greptile/knowledge.ts:223-224 | the swap acts on each section's text alone and leaves the headings |
| `Digest.ExtractDigestDocument` | src/decisions/questions.ts:224-236 | the trimmed text from the first heading to the next listed one, or nothing |
| `Digest.DigestReadsBack` | src/decisions/questions.ts:220-236 | each written document reads back as its text up to trimming and the swap, each unwritten one as nothing, when no listed heading stands elsewhere |
| `Handoff.FitHandoff` | src/claude/output.ts:515-565 | within the limit unless all evidence is gone; the order of sacrifice; a shortened section fills the limit exactly; nothing shed when all fits |
| `Handoff.LadderOfTexts` | src/claude/output.ts:515-565 | the candidate texts in order, from everything joined down to the fixed sections alone |
| `Handoff.PointerReplacesTheList` | src/claude/output.ts:515-565 | the pointer takes the place of the Linked issues list, and no other section changes |
| `Handoff.FixedSectionsStand` | src/claude/output.ts:515-565 | whatever is shed, every fixed section stands in the text, in order, the linked list possibly as its pointer |
| `Handoff.TruncatedFits` | src/claude/output.ts:290-306 | within the bound whenever that covers the parts that must stay and the line breaks reserved for them |
| `Handoff.WithoutTakesTheFirst` | src/claude/output.ts:298-300 | taking the ISSUES block out leaves what is before and after its first place |
| `Handoff.TruncateKeepsTheBoundIff` | src/claude/output.ts:290-306 | the result is within the bound if and only if the text fits, its elided form fits, or the bound covers the lines that are left when nothing else is |
| `Handoff.SmallBoundIsExceeded` | src/claude/output.ts:290-306 | the failing case: a text longer than a bound of at most 36 characters is cut to more than the bound |
| `Handoff.CutUsesTheRoom` | src/claude/output.ts:290-306 | a cut specification is as much of it as there is room for, to the end of a line, then the marker, the ISSUES block and the root's closing tag |
| `Handoff.IssuesSurviveTheCut` | src/claude/output.ts:290-306 | a cut specification holds the whole ISSUES block and the marker |
| `Clarifications.Normalize` | src/hitl/pipeline.ts:197-221 | the loop with its early exit computes the fold over all items |
| `Clarifications.FullStays` | src/hitl/pipeline.ts:206-206 | stopping early changes nothing |
| `Clarifications.WhereItemsGo` | src/hitl/pipeline.ts:113-221 | item by item: a new question with text is settled when a document that was read answers it, it is not blocking and fewer than four are settled; else asked while fewer than max are and it has two options or a claim to offer; with its own wording, options and default; anything else is dropped |
| `Clarifications.PassOneIsWellFormed` | src/hitl/pipeline.ts:197-221 | at most max open and MAX_SETTLED settled questions, gap-free ids, distinct questions, nothing blocking settled |
| `Clarifications.ReopenRejected` | src/hitl/pipeline.ts:228-254 | the pass-2 loop computes its fold |
| `Clarifications.Lockstep` | src/hitl/pipeline.ts:228-254 | pass 2, replaying the clarifier's items, reopens the rejected claims in order until the limit is full |
| `Clarifications.EveryClaimIsKeptOrRefused` | src/hitl/pipeline.ts:236-240 | every settled claim is kept with only its id changed, or is among the rejected ones |
| `Clarifications.ClaimStaysIff` | src/hitl/pipeline.ts:308-383 | a claim of pass 1 stays settled, with only its id changed, if and only if the check is off or does not reject it |
| `Clarifications.RunClarify` | src/hitl/pipeline.ts:308-407 | nothing when no question may be asked, else both passes and the promotions, as one function of the items and the verdicts |
| `Clarifications.ClarifyIsSound` | src/hitl/pipeline.ts:308-383 | for every output and every verdict: well formed, pass-1 questions an unmoved prefix whose blocking only rises, each rejected claim reopened unless the limit is full, promotions only by their own round |
| `Decision.Rail.PostDecision` | src/decisions/client.ts:351-446 | the sequenced attempts compute the run: outcome, clock and request times |
| `Decision.OutcomeIff` | src/decisions/client.ts:351-446 | without an abort the last request sent decides: answered if and only if it got a 2xx whose body parses in time, and for each kind failed with it if and only if it failed that way |
| `Decision.AbortedIff` | src/decisions/client.ts:351-446 | an abort cuts the run that would have been: aborted if and only if it comes no later than that run's end, ending there, with exactly the requests before it sent |
| `Decision.AtMostTwoRequests` | src/decisions/client.ts:351-446 | at most two requests; the second only after a transient failure with 500 ms left and itself with 125 ms left; attempts reported are requests sent |
| `Decision.RetriesIff` | src/decisions/client.ts:430-433 | without an abort, a retry happens exactly after a lost connection or a transient status that left 500 ms |
| `Decision.RetryAfterIsKept` | src/decisions/client.ts:305-311 | a Retry-After that leaves 500 ms is kept exactly, any other gives 125 to 375 ms |
| `Decision.SecondsAreRead` | src/decisions/client.ts:305-311 | delta seconds are read as such |
| `Decision.DatesAreRead` | src/decisions/client.ts:305-311 | a date is read as the time until it, a past one as none |
| `Decision.EndsInTime` | src/decisions/client.ts:351-446 | every decision ends within its budget, or one millisecond |
| `Decision.BudgetIsKeptIff` | src/decisions/client.ts:384-384 | the budget is kept by every run if and only if it is at least one millisecond |
| `Shutdown.StoreClosesLast` | services/ultrathink/lifecycle.ts:84-107 | a run closes the store once, and only after both the server stop and the app shutdown settled |
| `Shutdown.StopWaitsForDrain` | services/ultrathink/lifecycle.ts:66-82 | with a drain time, the server is only asked to stop when it is over |
| `Shutdown.OrderlyShutdownEnds` | services/ultrathink/lifecycle.ts:42-116 | an undisturbed shutdown closes the store and exits with the code it was asked for |
| `Shutdown.RunExitsOnce` | services/ultrathink/lifecycle.ts:46-74 | a run exits once, at its close or at the timeout, whichever is first |
| `Shutdown.ExitCodeIsZeroIff` | services/ultrathink/lifecycle.ts:46-74 | told from the steps: the code is 0 if and only if 0 was asked for, the store was closed, and no step went wrong and no timer fired before that; a requested failure stands, and any other end is 1 |
| `Shutdown.OneRunIff` | services/ultrathink/lifecycle.ts:112-116 | only one run starts if and only if no shutdown is asked for inside the first stretch of the first |
| `Shutdown.ExitAtMostOnce` | services/ultrathink/lifecycle.ts:42-116 | then, in every interleaving of timers, steps and calls, the process exits at most once and the store closes at most once |
| `Shutdown.ReentryExitsTwice` | services/ultrathink/lifecycle.ts:112-116 | the failing case: a call inside beginDrain, and two exits |
| `Shutdown.RunObject.CloseStore` | services/ultrathink/lifecycle.ts:95-111 | a rejected stop or a failed close turns success into 1, and only then does the run exit, if it has not |

## Left out

- File modes, fsync, case-insensitive names, hashed file stems and the legacy record path.
- Reuse of a pid by a new process, and lock texts other than a pid's digits, their prefixes and the marker.
- The text of a lock request that fails in an unforeseen way: such an error is a step that changes nothing.
- `Guard.SoloTakeover`: an undisturbed call; who wins when several recover at once is not stated, only that at most one does.
- `LeaseLock.Serializable`: says nothing about runs with an overdue live holder or an unlocked callback, which the source allows; `LeaseLock.TokenIsSafe` and `LeaseLock.RecordChangesWhole` cover those.
- `HookCommit.CommitsAreLinear`: takes the last byte check and the rename as one step; a write between the two is the one race the source accepts.
- `HookCommit.CursorDir.InstallPstack`: takes the check before the lock and the one under it as one, and starts from a script that could be read; a temporary file a crash leaves behind is not modelled.
- `HookCommit.CursorDir.InstallPlanner`: stops at the entry; the command files installed after it (`installGsdCommands`) are not part of this model.
- `LastLock.MarkedIsNeverHeld`: speaks of a holder whose marker was written; one that could not write it stays held until its process ends.
- `PlanRecord.AnswersSurviveTheSave`: asks that the updates between the answer and the save are answer calls or leave the clarifications alone, and that the stored questions are distinct when the save finds them; `PlanRecord.LateAnswerSurvivesIff` says what happens otherwise.
- `LockWait.Acquire`: asks for pollMs of at least 1 or no time to wait; `LockWait.AcquireStopsIff` shows that nothing less will do.
- `QuickMarkers.RunIsRightIff`: asks that no message arrives as another waiting one; after such an arrival it depends on the later tags whether a turn is judged wrongly. Blank prompts, which are left unplanned anyway, are not turns of the model.
- `Digest.DigestReadsBack`: asks that no listed heading stands elsewhere in the digest; a document quoting another's heading is cut there.
- `QuoteScanner.CommandInvocations`: starts from the lower-cased prompt; how lower-casing changes a text is not modelled.
- `Handoff.TruncateKeepsTheBoundIff`: the regular expressions for RATIONALE, ISSUES and the root tag are fixed functions; a matched ISSUES block is taken not to be all white space.
- `Clarifications.ClarifyIsSound`: starts from parsed items with trimmed fields; the text normalizers are fixed functions, and the digest lookup behind a verdict is part of the verdict.
- `Decision.EndsInTime`: only requests and the pause take time, and a sleep never lasts longer than asked.
- `Shutdown.ExitAtMostOnce`: a `schedule` that runs its callback at once is not modelled.
- JSON parsing, question extraction (`askedQuestions`), redaction, notices, labels and all prompt wording.
- `selectDocuments`, `detectStage`'s payload checks and `resolvePstack`: scoring, type tests and directory reading.
- `latestChecks`, `evaluateChecks`, `evaluateAudit` and the rest of the release gate: each reads one parsed report and compares its rows with the policy.
- Model calls, HTTP bodies, MCP and gateway traffic, git and child processes.
- `hosts/cursor/ultrathink-cursor-pstack.js`: the same logic as `src/cursor/pstack.ts`, modelled once.
