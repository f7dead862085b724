# Verification of pueue-agent's crash-safe core

This project models the parts of `pueue-agent` that have to stay correct while processes crash, calls fail and
retries repeat, and proves what they promise. Every call to the database, to Pueue, to Git and to the file system is
an answer that nothing constrains: it may fail at any time, and where the code cannot tell, a failed call may have
taken effect. `dafny verify dfyconfig.toml` checks everything.

| File | What it models |
|---|---|
| `SubmissionSteps.dfy`, `Submission.dfy` | exactly-tracked submission: any number of dispatchers over one store as small steps, and what holds over every run |
| `SubmissionRuns.dfy`, `SubmissionAcceptance.dfy`, `SubmissionVerdicts.dfy` | which runs add and accept, when an added task is accepted, and how a call ends by what it was told |
| `OwnerLifecycle.dfy`, `OwnerRounds.dfy`, `StartupOwners.dfy` | the recovery evidence of startup owners, the round-robin over a shrinking map, and the polling pass |
| `RetainedHandles.dfy` | the `swap_remove` passes, the join of shutdown attempts and the shutdown drain |
| `SessionNames.dfy`, `SessionWalk.dfy`, `SessionLookup.dfy` | session identifiers in file names, the bounded walk, and the searches built on it |
| `Effects.dfy`, `AgentTrace.dfy`, `AgentHandle.dfy` | the finish of one agent run, and the grammar that its effects follow |
| `BoundCleanup.dfy`, `AgentSpawn.dfy` | the retried cleanup of a failed launch, and the failure exits of a launch |
| `TomlQuote.dfy`, `PackedRefs.dfy`, `RustText.dfy` | the two text codecs, with a reader for TOML v1.0.0 basic strings and the `str` methods they use |
| `Batches.dfy`, `BatchDispatch.dfy` | the derived status and the stored batch; the dispatch loop, workers that crash, and how often a job is added |
| `Wrappers.dfy` | `Option` and `Result` |

## How it is stated

**Submission.** A world is a store of experiments and a map of dispatchers; an event is one step of a dispatcher, a
crash, a new call, or an action of the daemon or the reconciler. Between two steps anything may happen. Theorems are
about every point of every history that starts from the empty world. The row counts its adds, and `AddsBefore` counts
them again on the events themselves; `ToldBy` and `HeardBy` collect from the events what a call was told, and how the
call and its row end is stated over these answers.

**Session search.** A directory tree is a sequence of events in pre-order, and the walk is proved equal to a replay of
that sequence. The answer of the latest search is a property of the *bag* of entries, so it cannot depend on the order
in which directories list them.

**Batches.** A world is a stored batch and the worker that holds the project's lock; an event is one call of that
worker, a crash, a recovery or a claim. `AddsIn` and `LostIn` count on the events of a run how often a job is added,
and how many of these adds never reach the store.

**Agent runs.** Each handle keeps a trace of what it asked of the outside. A small grammar says which traces are
allowed; the class is proved to stay in it whatever is called and whatever fails, and separate lemmas say what the
grammar means for the positions of a trace.

## Where the code promises less than it might seem

* `RecoveryMayPrecedeTheAdd`: the start of a daemon takes no project lock, so it can quarantine a row as interrupted
  while the call that won it is still before its add. The add then happens after the quarantine. It is still the only
  one, and `AddStillPossibleExactly` says exactly when this can occur.
* `PaddedNameIsFoundAndMissing`: the latest search trims the identifier that it takes from a file name and the exact
  lookup does not, so under a padded name a session is found by the first and missing for the second.
  `CarriedIdIsExactUnlessPadded` gives the exact condition for a name, and `MissingExactlyUnderPaddedNames` for the
  two searches.
* `QuotedReadsBack`: the quoted empty string reads back unless another quotation mark follows, which would open a
  multi-line string. No caller puts one there.
* `ValidDiagnosisCanStillFail`: a state update that fails after a valid diagnosis was stored makes the next call read
  the output again, and that call may fail the run. `PerformAll` says exactly when it does not: a diagnosis run is
  finished as completed if and only if a state update for a valid diagnosis succeeded.
* `LeavesTheRun` in `AgentSpawn.Spawn`: before the private directory exists, an unresolved run is handed over to
  nobody exactly when the final write failed for a standard or diagnosis run, for a research run whose bind failed, or
  for a decision whose failure was persisted.
* `AnyNumberOfAdds`: a batch job can be added any number of times, each time with a task, because a worker may end
  between an add and its record. `AddsAreAccountedFor` counts exactly: the adds of a job are its lost ones and at most
  one that is stored or in flight. `AddedAgainExactly`: a job that was added can be added again if and only if its last
  add is not in the store and its batch has not failed.
* `FirstFailureSticks` and `StuckForEver`: a batch whose first add fails keeps its other jobs pending for ever,
  because a failed batch is never claimed again.

## Model

| member | source | states |
|---|---|---|
| Submission.AtMostOneAdd | src/campaign.rs:1185-1607 | over every run with any dispatchers, stale reads, crashes and half-failed calls a row receives at most one add: none while reserved or failed before its add, exactly one when accepted, whose id is listed once, signed, with the same group and command; a code change is accepted only after its boundary held twice |
| Submission.OnlyTheWinnerAdds | src/campaign.rs:1500-1549 | whoever adds has won the step from Reserved to Submitting, holds the project lock, and no other call has ever won that row |
| Submission.WinnerSettlesItsRow | src/campaign.rs:1500-1607 | a call that returns after winning leaves its row neither Reserved nor Submitting unless its own settling write failed; it never defers, and reports a submission only with one add and its evidence |
| Submission.MissingPolicyExitIsDead | src/campaign.rs:1522-1541 | after the winning step neither the missing-policy exit nor the exit without a won checkpoint is reachable |
| Submission.RunIsSafe | src/campaign.rs:1234-1607 | the inductive invariant of every run: row promises, what each call knows about its row, and at most one lock holder per project and one winner per row |
| Submission.QuarantineIsFinal | README.md:116 | a row whose add is unknown, whose task was not identified, or that is settled is never added again, whatever follows |
| SubmissionRuns.AddStillPossibleExactly | src/campaign.rs:1234-1549 | in every safe world, some continuation adds a task for a row exactly when the row is reserved or a call that won it is still before its add |
| SubmissionRuns.ReservedCanBeWon | src/campaign.rs:1234-1543 | from every safe world a reserved row can be won, whoever holds its project's lock |
| SubmissionRuns.ReservedCanBeAccepted | src/campaign.rs:1234-1609 | from every safe world a reserved row can be accepted with one task, by a call that returns with the submission |
| SubmissionRuns.SubmittingIsQuarantined | src/campaign.rs:1455-1462 | from every safe world some call quarantines a submitting row as interrupted, adds nothing and fails |
| SubmissionRuns.QuarantinedIsRefused | src/campaign.rs:1463-1463 | a call that finds a quarantined row fails and leaves it |
| SubmissionRuns.SettledIsReadBack | src/campaign.rs:1464-1474 | a call that finds a settled row reports it once more and leaves it |
| SubmissionRuns.UnverifiedIsFailed | src/campaign.rs:1304-1326 | from every safe world a reserved checkpoint whose files do not verify is failed before its add by some call, which fails |
| SubmissionRuns.UnreverifiedIsFailed | src/campaign.rs:1522-1541 | and one that was won and whose files do not verify again is, too |
| SubmissionRuns.CheckpointCanBeAdded | src/campaign.rs:1304-1549 | a checkpoint whose files verify twice can be added, once |
| SubmissionRuns.RecoveryMayPrecedeTheAdd | src/db/campaigns.rs:1869-1930 | recovery may quarantine a row while its winner is armed; the one add then follows and the row stays quarantined |
| SubmissionRuns.ArmedIsReachable | src/campaign.rs:1185-1543 | a run reaches such a world |
| Submission.HistoryCountsAdds | src/campaign.rs:1543-1549 | the adds of a row are exactly the add steps that took effect in the run |
| SubmissionSteps.MatchedIsListedOnce | src/campaign.rs:1571-1588 | the filter over the task list accepts only an id that occurs at one place, with the expected group and command and a signature |
| SubmissionAcceptance.AcceptedExactly | src/campaign.rs:1500-1609 | on every run, a row whose winner returned without a failed store write was accepted if and only if the add reported an id, the list read afterwards has it at one place with group, prepared command and signature, a candidate's boundary held twice, and no daemon started in between; otherwise the row's status says how far the call came, and the submission is reported exactly when it was accepted and read back |
| SubmissionAcceptance.MatchesExactly | src/campaign.rs:1571-1588 | the filter accepts a list if and only if the task stands in it at one place alone, with group, command and signature |
| SubmissionVerdicts.ReturnsExactly | src/campaign.rs:1234-1521 | on every run, a returned call has won, deferred, reported a settled row, quarantined a submitting one, failed an unverified checkpoint or failed, exactly as the answers up to its winning step say |
| SubmissionVerdicts.StepWrites | src/db/campaigns.rs:3180-3780 | a step writes to its row only its add, the evidence of its acceptance and the status of its transition, and that only when the write succeeds or takes effect |
| SubmissionVerdicts.WritesReachTheirStatus | src/db/campaigns.rs:3377-3780 | the store accepts a settling write if and only if the row has the asked status afterwards, and that exactly from a status in flight or by repetition |
| Submission.FrozenNeverAdds | src/db/campaigns.rs:3180-3320 | nothing returns to Reserved, so a row without an armed winner stays as it is for adds |
| OwnerLifecycle.RetirementExactly | src/daemon.rs:862-1091 | one poll asks for retirement exactly with an accepted observation, a quiescent or safely unstarted process, the lock, an absent marker for a run without process id, and an opened or completed cleanup |
| OwnerLifecycle.LeavesExactly | src/daemon.rs:862-1091 | a poll drops an owner if and only if it is not in the store any more, or its retirement was asked for and granted |
| OwnerLifecycle.StopsExactly | src/daemon.rs:957-991 | a poll stops the pass if and only if the process is gone, the project and its configuration are there, and there is no runner |
| OwnerLifecycle.MarkedExactly | src/daemon.rs:862-1075 | an owner is marked for recovery if and only if its evidence has changed, its project, configuration or policy is missing, or, under the lock, its start or its cleanup cannot be proved |
| OwnerLifecycle.ErrorExactly | src/daemon.rs:862-1091 | a poll notes an error if and only if a read, a mark, the project lookup, the lock or the retirement failed, or there is no runner |
| OwnerLifecycle.EntryExactly | src/daemon.rs:880-931 | the entry of an owner that stays is the refreshed observation if that was accepted, and the old one otherwise |
| OwnerLifecycle.PollKeepsEvidence | src/daemon.rs:880-931 | a poll keeps the pinned evidence, loses nothing that was reached, and any tracked change is progress |
| OwnerLifecycle.AllowedRaises | src/daemon.rs:1276-1376 | an allowed transition never lowers the status, gate or review rank, changes no set code and reverts no flag, and raises the measure when it changes anything |
| OwnerLifecycle.AcceptedExactly | src/daemon.rs:1276-1376 | between named states an observation is accepted if and only if it is the same run and authority, its states have climbed, every code is kept or may be set now, and it does not newly look as if nothing was started |
| OwnerLifecycle.CodeIsKeptOrFirstSet | src/daemon.rs:1298-1326 | a code is allowed if and only if it is kept, or first set beside a review that waits for a retry, is blocked or has ended |
| OwnerLifecycle.OtherStatesStay | src/daemon.rs:1339-1376 | a status, gate or review state with another name never changes |
| OwnerLifecycle.ThirteenChangesAreAccepted | src/daemon.rs:1276-1376 | a chain of thirteen accepted changes exists, so the bound is tight |
| OwnerRounds.SelectBatch | src/daemon.rs:838-858 | the selected batch is the next places from the cursor around the ordered keys, without repetition, and the cursor moves past it |
| OwnerRounds.SelectedAreDistinct | src/daemon.rs:847-856 | a tick selects min(max(limit, 1), n) distinct owners of the map |
| OwnerRounds.QuietRoundsSelectEveryone | src/daemon.rs:846-858 | while nothing is removed, n over the batch size (rounded up) ticks select every owner |
| OwnerRounds.SurvivorIsSelected | src/daemon.rs:838-858 | whatever leaves the map, an owner that stays is selected within n such rounds |
| OwnerRounds.AllRoundsAre | src/daemon.rs:847-858 | in closed form these are n times n over the batch size, rounded up |
| StartupOwners.Daemon.Poll | src/daemon.rs:838-1095 | a pass leaves the map and the cursor that the specification gives, fails exactly when some poll noted an error, and counts the owners that left |
| StartupOwners.PassIsPointwise | src/daemon.rs:862-1095 | a pass does to a polled owner what its own poll does and nothing to any other |
| StartupOwners.LeavesOnlyRetired | src/daemon.rs:862-1095 | over every run an owner leaves the map only in a pass that polled it and found it gone from the store, or asked for its retirement and was granted it |
| StartupOwners.PolledExactly | src/daemon.rs:862-991 | an owner of the batch is polled if and only if no poll before it stopped the pass |
| StartupOwners.PassErrsExactly | src/daemon.rs:1085-1095 | a pass fails if and only if one of the polls that it came to noted an error |
| StartupOwners.RunKeepsEvidence | src/daemon.rs:880-931 | along every run of passes an owner stays pinned to its snapshot and each tracked change adds to its progress |
| StartupOwners.AtMostThirteenChanges | src/daemon.rs:887-931 | no run changes the tracked fields of an owner that stays more than thirteen times |
| StartupOwners.RetiredIsTheSnapshot | src/db/research.rs:2783-2840 | what is retired has the project, review, process id, log and authority lineage of the startup snapshot |
| StartupOwners.PidlessRetirement | src/daemon.rs:932-1041 | a run without process id that has not ended is retired only if the snapshot was starting and pending without codes and marker, and the marker is absent again |
| StartupOwners.SurvivorIsPolled | src/daemon.rs:838-862 | with a runner, an owner that stays is polled within n rounds of the map's size |
| RetainedHandles.PollAll | src/daemon.rs:768-812 | a pass calls every handle exactly once, keeps exactly those that did not finish, and reports the first error or the count |
| RetainedHandles.FirstErrorMeans | src/daemon.rs:768-836 | the error that a pass reports is that of the earliest call that failed, and there is none exactly when none failed |
| RetainedHandles.Daemon.PollRetained | src/daemon.rs:768-836 | all three passes run whatever the first answers: every handle is called once and exactly the unfinished stay; the first error is reported, where a failed cleanup that is still pending is none, else owners plus agents |
| RetainedHandles.JoinPass | src/daemon.rs:1191-1203 | one pass takes out exactly the ready futures and loses none |
| RetainedHandles.Join | src/daemon.rs:1188-1210 | every output is returned exactly once, in the order in which the futures became ready |
| RetainedHandles.Daemon.DrainRound | src/daemon.rs:1100-1155 | every handle is tried once; exactly those whose try failed come back, none is lost or duplicated, and the error is that of one of them |
| RetainedHandles.Daemon.Drain | src/daemon.rs:1097-1173 | kept and finished handles together are the initial ones, the former failed in every round and the latter not; it ends in the first round after which nothing is left, with the initial total, or else only when the clock fails or the deadline has passed |
| RetainedHandles.PickedIgnoresOrder | src/daemon.rs:1135-1155 | what is picked out of the joined attempts does not depend on their order of completion |
| RetainedHandles.RestIgnoresOrder | src/daemon.rs:772-787 | which handles are left does not depend on the order of the calls |
| SessionWalk.WalkSessionDirectory | src/codex_session.rs:508-560 | the recursive walk equals the replay of the pre-order event sequence |
| SessionWalk.WalkSucceedsExactly | src/codex_session.rs:508-560 | it succeeds exactly without obstacles, within the budget and with every callback accepting; it then called back once per entry and spent exactly the number of entries |
| SessionWalk.OnlyTheBoundsStop | src/codex_session.rs:508-560 | when opens and callbacks succeed it fails exactly on too many entries or a directory at depth 32 |
| SessionNames.CarriedIdIsExactUnlessPadded | src/codex_session.rs:563-569 | a name carries an identifier and ends in its exact suffix exactly when it is not padded |
| SessionNames.MetadataIdMeans | src/codex_session.rs:945-949 | the identifier of a record is read from its simple, hyphenated, braced and URN spellings in either case, without white space, and from nothing else |
| SessionNames.MetadataIdIsCanonical | src/codex_session.rs:945-949 | whatever its spelling, the identifier of a record is compared in its hyphenated lower-case form |
| SessionNames.ExactNameCarriesId | src/codex_session.rs:563-569 | every name that the exact lookup accepts carries the identifier |
| RustText.TrimMeans | src/codex_session.rs:160-161 | trimming cuts blanks off both ends and leaves a text that neither begins nor ends with one |
| SessionLookup.ResolveLatestOwnedSession | src/codex_session.rs:403-497 | the answer as a property of the bag of entries: refused on any obstacle or duplicate, else the greatest (time, id) of the owned sessions |
| SessionLookup.SessionExactly | src/codex_session.rs:428-456 | an entry counts as a session if and only if it is a regular file that opens, its name carries the identifier, its time is known and its first record is a session's, of this identifier and with an absolute directory; it then has its own modification time and directory |
| SessionLookup.LatestIsNewestFile | src/codex_session.rs:403-497 | on Ok(id) some such file inside the project carries the identifier, and no other there is newer, or as new with a greater identifier |
| SessionLookup.FilesAreTheEntries | src/codex_session.rs:508-560 | the entries in question are exactly those listed in the two stores' trees |
| SessionLookup.LatestIgnoresOrder | src/codex_session.rs:403-497 | reordering entries at any level of either store gives the same identifier or the same error |
| SessionLookup.NewestIsUnique | src/codex_session.rs:484-496 | no two identifiers are both the newest |
| SessionLookup.SecondCheckNeverRefuses | src/codex_session.rs:440-483 | the second duplicate check can never fire |
| SessionLookup.LocateMetadata | src/codex_session.rs:619-706 | a file exactly when everything was traversed and it alone, a regular file, matches; missing exactly when nothing matches; otherwise an error that is neither |
| SessionLookup.LenientAgreesWithStrict | src/codex_session.rs:619-706 | whenever the strict mode finds or misses, the lenient mode answers the same |
| SessionLookup.ProbeOwnedSession | src/codex_session.rs:307-325 | missing only after a complete search without a match, owned exactly when the one matching file verifies |
| SessionLookup.LatestIsNeverMissing | src/codex_session.rs:403-706 | what the latest search finds under an unpadded name the exact lookup never misses, and any file it returns proves the session |
| SessionLookup.MissingExactlyUnderPaddedNames | src/codex_session.rs:403-706 | what the latest search answers is missing for the lenient exact lookup exactly when every entry whose name carries the identifier is padded |
| SessionLookup.PaddedNameIsFoundAndMissing | src/codex_session.rs:563-569 | under a padded name the two searches disagree |
| AgentTrace.NothingBeforeTheEnd | src/agent.rs:3764-3832 | the process ends once, before anything is asked of the store |
| AgentTrace.HandledIsLast | src/agent.rs:3113-3616 | once a role's handler is marked, the role has no further effect |
| AgentTrace.FinishedOnce | src/agent.rs:3618-3642 | after the run is finished only its cleanup goes on |
| AgentTrace.CleanupNeedsFinish | src/agent.rs:3644-3704 | cleanup and release come only after a successful finish |
| AgentTrace.FinishNeedsHandler | src/agent.rs:3618-3642 | a run with a role is finished only after its handler is marked |
| AgentHandle.AgentHandle.PersistDecision | src/agent.rs:3060-3179 | the decision prepared first is stored if its run completed with a valid output, and failed otherwise, with exactly one call per try and never both |
| AgentHandle.AgentHandle.PersistDiagnosis | src/agent.rs:3183-3262 | the calls up to the first that fails; without a valid diagnosis the outcome becomes Failed, also after a time-out |
| AgentHandle.AgentHandle.PersistResearch | src/agent.rs:3266-3426 | the review is stored, or failed, or left undecided when the database fails; a completed run without a stored review becomes failed |
| AgentHandle.AgentHandle.PersistEditor | src/agent.rs:3432-3616 | session bind, result and rejection are asked for in this order up to the first that fails, and the handler is marked exactly when all succeed |
| AgentHandle.ReadyExactly | src/agent.rs:3480-3600 | an editor's result is finished as ready if and only if the run completed with ready output and its session, on a first built-in attempt, is the same or was bound first |
| AgentHandle.BoundExactly | src/agent.rs:3568-3586 | a session is bound if and only if a first built-in attempt has proven another one than the reserved |
| AgentHandle.ReviewedExactly | src/agent.rs:3266-3386 | a review's session is confirmed if and only if the run completed with its own session, and its review is finished if and only if that was stored and the answer is valid |
| AgentHandle.FailedReviewExactly | src/agent.rs:3387-3402 | a review is failed if and only if it was not stored, unless the database itself failed on the way |
| AgentHandle.RejectedExactly | src/agent.rs:3587-3613 | an editor is rejected exactly after its result was finished as not ready and no attempt is left to help; so always on a first built-in attempt without a proven session once the result is finished |
| AgentHandle.AgentHandle.PersistTerminal | src/agent.rs:3618-3642 | succeeds exactly when it was persisted before or the role and the finish succeed; the status is the role's final one |
| AgentHandle.AgentHandle.RetryCleanup | src/agent.rs:3644-3704 | needs a persisted status, succeeds exactly when the remaining steps do, and then has released the authority |
| AgentHandle.AgentHandle.Poll | src/agent.rs:3764-3832 | Some(status) exactly when everything left succeeds, and then persisted and released; None exactly while it runs or while only cleanup is pending; a lost process excludes outcome, persistence and release |
| AgentHandle.AgentHandle.Wait | src/agent.rs:3834-3887 | the same for the wait |
| AgentHandle.AgentHandle.TimeoutNowBefore | src/agent.rs:3911-3931 | the same for the shutdown's time-out under a deadline |
| AgentHandle.AgentHandle.PerformAll | src/agent.rs:3706-3931 | over any calls every reported status is the persisted one; nothing is undone and no outcome is promoted; a decision is stored exactly for a completed run with a valid output and otherwise failed, a review is finished as its answers require, and a diagnosis run is finished as completed exactly when its state update for a valid diagnosis succeeded |
| AgentHandle.OneGoodCallFinishes | src/agent.rs:3618-3704 | one call in which nothing outside fails finishes any ended run, wherever earlier calls stopped |
| AgentHandle.ValidDiagnosisCanStillFail | src/agent.rs:3240-3262 | a run that exited with success and stored a valid diagnosis can be finished as failed; its state was then never updated for a valid diagnosis |
| BoundCleanup.TerminatedFirst | src/agent.rs:383-401 | a live child is terminated first, and once |
| BoundCleanup.FinalizedOnce | src/agent.rs:403-521 | a run that owns its directory is finalized once: after a final store call that succeeds only cleanup goes on |
| BoundCleanup.CleanupNeedsFinalization | src/agent.rs:468-521 | its directory is cleaned and released only after a final store call has succeeded |
| BoundCleanup.FinalComesAfterItsNeeds | src/agent.rs:409-466 | every final call is the intent's own and comes after the editor's, the authority's, the review's and the decision's failure have been persisted |
| BoundCleanup.FinalCallMeans | src/agent.rs:206-300 | a violation from the marker on is recorded as one after the marker, any other failure before the gate, where only a failure without a violation may be retried |
| BoundCleanup.PostMarkerMeans | src/agent.rs:222-250 | the run counts as launched if and only if its failure is a violation from the marker on |
| BoundCleanup.BoundCleanupHandle.Retry | src/agent.rs:361-521 | succeeds exactly when everything still owed succeeds, never undoes anything, and on the kinds that own a directory ends finalized and released |
| BoundCleanup.BoundCleanupHandle.RetryAll | src/agent.rs:361-521 | any retries keep all that, and one that answers done has every owed call in the trace; a retry in which nothing fails completes the cleanup |
| AgentSpawn.ResolveBoundRole | src/agent.rs:2682-2805 | an error before the directory exists hands over the intent of its source, and every failure that the role owes has succeeded or is handed over; the first failing step decides which |
| AgentSpawn.ResolveUnownedDecisionBind | src/agent.rs:2497-2536 | a failed bind hands over the run without the decision's attempt, exactly when the final write failed |
| AgentSpawn.ResolveRetainedTemp | src/agent.rs:2573-2633 | resolved exactly when everything owed succeeds at once, and otherwise handed over with the directory and everything that the role still owes |
| AgentSpawn.ResolveLiveChild | src/agent.rs:2827-2913 | resolved exactly when the child's end is certain and everything owed succeeds; otherwise the handle owes what is left |
| AgentSpawn.ReleaseChild | src/agent.rs:2120-2231 | after the marker is authorized a failure is post-marker, with unknown execution and no retry resolution |
| AgentSpawn.Spawn | src/agent.rs:1461-2279 | no exit after the insertion is pre-binding; an error has no cleanup exactly when it is resolved or the run is left to nobody; after the directory exists the second cannot happen; every failure that the role owes has succeeded or is in the handle |
| TomlQuote.QuoteToml | src/codex_command.rs:807-826 | the loop writes the quoted form that the reader undoes |
| TomlQuote.QuotedReadsBack | src/codex_command.rs:807-826 | reading a quoted value before any rest gives the value and the rest, except for the empty value before a quotation mark |
| TomlQuote.QuotedIsPrefixFree | src/codex_command.rs:807-826 | no quoted value is a proper prefix of another |
| TomlQuote.PaddedHexDenotes | src/codex_command.rs:816-819 | four hexadecimal digits denote every control character |
| TomlQuote.EscapedHasNoControl | src/codex_command.rs:807-826 | no raw control character is written |
| TomlQuote.EscapeExactly | src/codex_command.rs:807-826 | five characters have an escape of their own, every other control character a code of four digits, and all others stand for themselves |
| TomlQuote.EnvironmentNameMeans | src/codex_command.rs:797-805 | a name is valid if and only if it has 1 to 128 characters, first a letter or an underscore, then also digits |
| TomlQuote.WritableRoots | src/codex_command.rs:396-403 | the override reads back to exactly the two paths |
| TomlQuote.PrivateWritableRoot | src/codex_command.rs:541-547 | the override reads back to exactly the private path |
| TomlQuote.ProjectTrust | src/codex_command.rs:404-410 | the override reads back to a table that marks exactly this path as untrusted |
| TomlQuote.EnvironmentFilters | src/codex_command.rs:774-805 | refused exactly for an invalid name that is not screened out; otherwise an inline table with exactly the kept names |
| TomlQuote.ShellEnvironmentPolicy | src/codex_command.rs:411-416 | refused on the same condition; otherwise the whole override reads back to a table that inherits all, ignores no default exclusion, uses no profile and includes exactly the kept names |
| PackedRefs.ParsePackedRefs | src/campaign.rs:1888-1933 | the one-pass scanner equals its declarative grammar |
| PackedRefs.ScanMeans | src/campaign.rs:1888-1933 | present exactly when well formed with one place naming the reference, absent exactly when well formed with none |
| PackedRefs.FullShaMeans | src/code_change.rs:3194-3196 | an object id is 40 or 64 of the sixteen lower-case hexadecimal digits |
| PackedRefs.PrintedRecordsScan | src/campaign.rs:1888-1933 | printing any list of records and scanning it agrees with how often the list names the reference |
| PackedRefs.ClassifyExactGitRef | src/campaign.rs:2023-2083 | absent and present exactly as the three sources say together; a spoilt source is never absence |
| Batches.KindsDetermineTheStatus | src/batches.rs:638-667 | the derived status depends only on which job statuses occur |
| Batches.StatusMeans | src/batches.rs:638-667 | each status holds for exactly one set of circumstances |
| Batches.BatchCounts | src/batches.rs:501-515 | the loop counts the jobs by status and the three counts add up to the jobs |
| Batches.RunKeeps | src/db/repositories.rs:2399-2768 | over any operations of the store an accepted or failed job stays so and the status stays consistent with jobs and lease |
| Batches.AcceptExactly | src/db/repositories.rs:2456-2615 | an accepted job is taken if and only if its task is valid and it is a repetition, or the job is in dispatch and the lease is the worker's and has not run out; no other job changes, and the lease lasts while a job is in dispatch |
| Batches.FailExactly | src/db/repositories.rs:2616-2704 | the same for a failed job with an error; every other job in dispatch is pending again and the lease is given up |
| Batches.RecoverExactly | src/db/repositories.rs:2711-2768 | recovery takes the jobs in dispatch back from a lease that has run out, and changes nothing under one that has not |
| Batches.ClaimExactly | src/db/repositories.rs:2399-2454 | a claim takes every pending job into dispatch under the lease and changes no other |
| Batches.ClaimableExactly | src/db/repositories.rs:2399-2454 | an unleased batch with pending jobs can be claimed exactly unless a job failed and none was accepted |
| Batches.EarlyFailureSticks | src/db/repositories.rs:2616-2704 | a failure before any acceptance makes a batch of several jobs stuck |
| Batches.StuckForEver | src/db/repositories.rs:2399-2768 | no operation of the store changes a stuck batch |
| BatchDispatch.Dispatch | src/batches.rs:330-389 | the loop is a run of one worker: the adds are the first of the dispatching jobs, once each; they are stored as accepted with their own tasks, except possibly the last, which failed or is lost with an error; after a failure the rest is pending again |
| BatchDispatch.RecordExactly | src/batches.rs:343-389 | the result of an add is recorded if and only if the clock is read, the worker's lease is alive and the task is valid; the job is then accepted with its task or failed with its error |
| BatchDispatch.RunIsSound | src/batches.rs:308-389 | on every run the worker at work holds the lease and its list is what the store has as dispatching |
| BatchDispatch.AddsAreAccountedFor | src/batches.rs:308-389 | at every point of every run the adds of a job are its lost ones, plus one if it is decided or its add is in flight |
| BatchDispatch.AtMostOneMoreThanLost | src/batches.rs:343-389 | a job is added at most once more than it has lost adds, with equality exactly when it is decided or its add is in flight |
| BatchDispatch.AddStillPossibleExactly | src/db/repositories.rs:2399-2768 | some continuation adds a job exactly when the job is undecided and its batch has not failed |
| BatchDispatch.AddedAgainExactly | src/batches.rs:343-389 | a job that was added can be added again exactly when its last add is not in the store and its batch has not failed |
| BatchDispatch.AnyNumberOfAdds | src/batches.rs:343-389 | for every number there is a run from a new batch that adds a given job that often, each time with a task |
| BatchDispatch.LeftJobIsClaimable | src/db/repositories.rs:2711-2768 | once the lease has expired an undecided job is pending in a batch that can be claimed, unless the batch failed |
| BatchDispatch.FirstFailureSticks | src/batches.rs:368-384 | from a new batch of several jobs, a first add that fails leaves every other job pending, and nothing that follows adds it |

## Left out

- SQLite, its schema, its transactions' isolation and migrations: each store call is one atomic transition or a failure that may have taken effect; only the columns that the modelled decisions read are kept.
- Processes, signals, descriptors, Git subprocesses and their configuration screening: answers of calls.
- Async scheduling and wall-clock time: a future is ready from some pass on, a deadline is an answer, and the shutdown drain counts rounds.
- Hashes, JSON, UUID generation and the parsers of diagnoses, decisions, research answers and editor output: answers.
- Redacted error texts, exit codes and log lines that the modelled decisions do not read.
- `validate_intent_identity`, the candidate checks and the runtime environment of a code change: one answer each; `require_code_change_runtime_recovery` writes another table and is not modelled.
- Error values of failing submission steps: all are one verdict.
- Submission of several experiments by one daemon pass (`dispatch_reserved_campaign_submissions`): every call it makes is a new dispatcher of the model.
- SubmissionRuns.RecoveryMayPrecedeTheAdd: that a daemon starts while another process holds the project lock is taken from the code, which takes no lock there.
- StartupOwners.Daemon.Poll: the store's own compare-and-set inside `retire_startup_native_owner` is one answer.
- OwnerLifecycle.RetirementExactly: the recovery note text is carried along and not compared by the daemon.
- SessionLookup.ResolveLatestOwnedSession: directory paths are not part of the tie-break, because two owned candidates never share an identifier.
- SessionWalk.WalkSessionDirectory: replacement of a directory during the walk is an open that fails.
- TomlQuote.EnvironmentFilters: the screening of credential and proxy names is a parameter.
- TomlQuote.ProjectTrust: the reader covers the strings, lists and inline tables that the overrides use, not comments or whole documents.
- RetainedHandles.Daemon.Drain: a handle is an identity with answers per round; its inner state is the subject of `AgentHandle` and `BoundCleanup`.
- AgentHandle.AgentHandle.PersistResearch: which session identifier is passed to the clearing call is not kept.
- AgentSpawn.Spawn: checks before the insertion are two answers, and intervention reservations and locks are not kept.
- BatchDispatch.Dispatch: that one worker at a time acts on a project's batches is taken from its admission lock; clocks of two workers are not compared, and a record may come at any time.
- Exit without a handle in the tests' own authority variant, and platforms other than Unix.
- `src/diagnostics.rs`, `src/cli.rs`, `src/config.rs`, `src/guardrails.rs`, `src/decision*.rs`, `src/detect.rs`, `src/cancel.rs` and `src/interventions.rs`: rendering, wiring and single checks that would only add easy members.
