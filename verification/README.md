# Verified models of the job-application agent

The agent applies for jobs on its operator's behalf, and everything difficult about it guards one irreversible action: the
final employer submit. This project models the protocols around that action in Dafny and proves what they promise over all
inputs and over all runs.

Tables are maps of rows, a committed transaction is one step, times are natural numbers (seconds, or milliseconds in the bridge
and in durations), digests are opaque values without collisions and random tokens are fresh values. Services that change rows
are methods of classes whose specifications are functions on the same rows; what those functions guarantee over whole runs is
proved as lemmas.

| files | component |
|---|---|
| `PatternSyntax`, `PatternGrammar`, `PatternCompiler`, `PatternMatcher` | bounded form-pattern compiler and matcher |
| `Records`, `Schema`, `Database`, `Lifecycle`, `Admission`, `FinalAction`, `Mutations`, `SubmissionStore`, `Protocol`, `ProtocolSteps`, `ProtocolChecks`, `ProtocolRuns`, `AdmissionRules`, `WriterRules`, `CommitRules`, `ReviewedRuns` | submission protocol |
| `ReviewGrants`, `GrantOutbox`, `GrantRules` | review-grant outbox |
| `Quarantine`, `QuarantineRows`, `RestoreRuntime`, `TablePasses` | restore quarantine |
| `Governor`, `GovernorPaths`, `Cooldowns` | rate governor |
| `PolicyLimits`, `PolicyRules`, `ExpiryChain`, `AutopilotRuns`, `AutopilotCommits`, `EvaluationRules` | signed-policy limits and nested deadlines |
| `Metrics`, `MetricsSession` | durable operational metrics |
| `EmployerTruth`, `CanaryChain`, `CanaryRules`, `CanaryRuns`, `Planner`, `PlannerValues` | employer truth, canary qualification, answer planner |
| `Deduper`, `Scheduler` | bridge deduper and scan scheduler |

Some promises turned out to be false of the code as written. Each is kept as the code has it, with an input that shows the
failure and the exact condition under which the promise holds:

- The SQL form of employer verification counts an attempt whose adapter name is a lone tab; the in-process predicate does not.
  The two disagree exactly when the query accepts an attempt with an identifying text that consists only of whitespace other
  than spaces; the operator's count is too high by exactly the latest attempts of that kind (`Schema.TabbedRowIsHeld`,
  `EmployerTruth.TabbedNameIsMiscounted`, `EmployerTruth.QueryMatchesPredicate`, `EmployerTruth.LatestVerifiedCount`).
- The LinkedIn gap holds between the times workers stamp, not between their executions: a worker delayed between stamping and
  EXEC shortens the next gap by that delay. Executions are sure to be spaced exactly when no worker is late
  (`GovernorPaths.LateExecutionClosesTheGap`, `GovernorPaths.SpacedExactlyWhenPrompt`).
- The in-process governor never lets a reservation expire, so it can allow what an uncontended shared run refuses: exactly for
  a lapsed reservation asked for again while the cap or the gap would refuse a new one
  (`GovernorPaths.FallbackRemembersTooLong`, `GovernorPaths.FallbackAgrees`).
- A challenge can shorten the cooldown that another one set. A write does so exactly when its clock reading follows the previous
  writer's by less than its hours fall short (`Cooldowns.WriteShortensExactly`). Trips are sure never to do so exactly when they
  are serialized and none stalls for more than 126 hours between counting itself and reading the clock
  (`Cooldowns.OvertakenTripShortens`, `Cooldowns.StalledTripShortens`, `Cooldowns.NeverShortensExactlyWhenSerial`).
- A repeated batch is answered with its original attempts exactly until one of its authority deadlines has passed; after that
  even the repeat is refused (`SubmissionStore.RepeatAtDeadlineIsRefused`, `SubmissionStore.RepeatedBatch`).
- Plan validation can reject what the planner answers: an identity value on a field that needs review, a confirmed fact there
  under another key, a value outside the observed constraints. It accepts a plan exactly when none of these occurs
  and the plan's own frame is in order (`Planner.NumberBelowMinimumIsRejected`, `Planner.FamilyNameOnConsentIsRejected`,
  `Planner.UnnamedConsentIsRejected`, `Planner.ValidationPassesExactly`).

## Model

| member | source | states |
|---|---|---|
| `PatternGrammar.ReadingInvertsSpelling` | core/submission_domain.py:1194-1345 | for every text and every well-formed syntax tree within the limits, the text reads as that tree if and only if it is its spelling |
| `PatternGrammar.AnchorsAreImplied` | core/submission_domain.py:1303-1314 | an unanchored pattern that parses denotes the same atoms with both anchors written out, whenever that still fits the length limit |
| `PatternGrammar.TokensEndUnanchored` | core/submission_domain.py:1306-1312 | complete tokens never end in an unescaped dollar sign, so a final dollar is an anchor exactly when it is unescaped |
| `PatternGrammar.TokensEndEven` | core/submission_domain.py:1306-1312 | complete tokens end in an even number of backslashes, so a dollar sign after them is an anchor |
| `PatternGrammar.SpellingIsRead` | core/submission_domain.py:1298-1345 | printing a tree and reading it back gives the tree |
| `PatternGrammar.ReadIsSpelled` | core/submission_domain.py:1298-1345 | whatever reads is the spelling of what was read, and is well-formed |
| `PatternCompiler.EscapedPatternCharacters` | core/submission_domain.py:1194-1208 | an escape denotes the character set of the unit the grammar reads there, and advances past it |
| `PatternCompiler.ClassUnit` | core/submission_domain.py:1211-1229 | one class unit denotes the set and the sole character of the unit read, and advances |
| `PatternCompiler.CharacterClass` | core/submission_domain.py:1232-1270 | the class loop yields the union of the items read, or fails exactly when the grammar does |
| `PatternCompiler.BoundedQuantifier` | core/submission_domain.py:1273-1295 | the repeat bounds and the next cursor are those of the quantifier read, or nothing exactly when it does not read |
| `PatternCompiler.CountSlashes` | core/submission_domain.py:1306-1312 | counts the trailing backslashes |
| `PatternCompiler.ParseBoundedFormPattern` | core/submission_domain.py:1298-1345 | compiles a pattern exactly when it reads as a tree, to exactly the atoms that tree denotes |
| `PatternMatcher.Advance` | core/submission_domain.py:1362-1370 | adds exactly the end positions one atom can reach from one position |
| `PatternMatcher.AdvanceAll` | core/submission_domain.py:1359-1373 | the next position set is exactly what the atom reaches from the current one |
| `PatternMatcher.MatchesAtoms` | core/submission_domain.py:1354-1374 | accepts exactly the values that split into one run per atom, each within its bounds and its set; the early exits never change the answer |
| `PatternMatcher.MatchesBoundedFormPattern` | core/submission_domain.py:1348-1374 | true exactly when the pattern spells a supported tree and the value splits over the atoms it denotes |
| `PatternMatcher.ReachIsBounded` | core/submission_domain.py:1354-1356 | no split reaches past the total number of states, which is why the length cutoff is safe |
| `PatternMatcher.CompiledPatternsAreBounded` | core/submission_domain.py:1182-1345 | every compiled pattern has inhabited sets, ordered bounds of at most 64, and at most 256 states |
| `PatternSyntax.ClassesByCode` | core/submission_domain.py:59-66 | the named classes, the plain characters and the escapable ones are these ASCII codes |
| `PatternSyntax.CountsAreDecimal` | core/submission_domain.py:1286-1295 | a repeat count of one or two digits is its decimal value |
| `Lifecycle.CommitDecidesOutcome` | core/submission_state.py:15-64 | a legal stage path that ever commits can finish only unknown or confirmed, and one that never commits with neither |
| `Lifecycle.PathsGoForward` | core/submission_state.py:15-40 | stages only move forward along every legal path |
| `Lifecycle.OnlyConfirmedIsGreen` | core/submission_state.py:129-157 | only an employer-confirmed finished attempt projects to success |
| `Lifecycle.UnfinishedProjection` | core/submission_state.py:129-157 | an unfinished attempt has no outcome and is pending before the boundary, running behind it |
| `Admission.IssuedPermitValidates` | core/submit_permits.py:33-136 | a permit issued with an attempt validates for it at every time before its expiry, under the same URL only |
| `SubmissionStore.Store.CreateOneCommand` | core/submission_service.py:629-863 | the statement-by-statement admission agrees with its specification on every refusal and on every row written, although refusals can follow partial writes |
| `SubmissionStore.Store.WriteRows` | core/submission_service.py:758-863 | attempt, canary consumption, permit and command are written as specified, or the permit's refusal is returned |
| `AdmissionRules.AdmittedExactlyWhenAdmissible` | core/submission_service.py:348-863 | a request is newly admitted if and only if its key is unused and, column by column, application, attempts, plan, authority, adapter and session all allow it; then exactly the next attempt, its permit until the earliest deadline, its command and the spent canary are written |
| `AdmissionRules.EligibilityRefusalsTellWhy` | core/submission_service.py:655-704 | the application's own refusals: another revision, no current review, a failed attempt without a new preparation, an open one, each reported only when it is so |
| `AdmissionRules.PlanRefusalsTellWhy` | core/submission_service.py:348-429 | the plan's refusals: exactly the first thing wrong among plan, attachment, lateness, expiry, revision, CV, profile and blockers is reported |
| `AdmissionRules.BatchCommitsExactly` | core/submission_service.py:866-926 | a batch commits if and only if it may be taken, every request is admitted on what the one before left, and no deadline has passed at commit |
| `AdmissionRules.BatchRefusalsTellWhy` | core/submission_service.py:866-895 | which refusal an empty, oversized, duplicated, unauthorized or unserialized batch meets |
| `AdmissionRules.RaceAnswersExactly` | core/submission_service.py:916-922 | after a lost race only a lone request the winner admitted as bound is answered, with the winner's attempt |
| `SubmissionStore.Store.CreateSubmissionCommands` | core/submission_service.py:866-926 | the batch loop commits the specified rows for every request, or restores the database exactly, or after a real clash with another transaction at a unique rule answers from what that one committed |
| `Admission.RacelessBatch` | core/submission_service.py:866-926 | without a race a batch is committed whole or leaves the database as it was |
| `SubmissionStore.RaceLoserGetsOriginal` | core/submission_service.py:916-922 | when two copies of one request race, the second clashes with the first, is answered with its attempt and changes nothing |
| `SubmissionStore.RacesAddNoState` | core/submission_service.py:916-922 | a batch that loses a race leaves the database as it was or as the winner committed it, so races reach no further state |
| `SubmissionStore.AdmittedInApplicationOrder` | core/submission_service.py:896-908 | requests are admitted sorted by application and none is lost or repeated |
| `SubmissionStore.RepeatedBatch` | core/submission_service.py:317-345 | a repeated batch returns the original attempts and changes nothing, exactly until an authority deadline has passed |
| `SubmissionStore.LateRepeatIsRefused` | core/submission_service.py:909-914 | any single request admitted with a deadline is refused when sent again after it, although it is on record |
| `SubmissionStore.RepeatAtDeadlineIsRefused` | core/submission_service.py:909-914 | a recorded request with deadline five, sent again at five, is refused |
| `SubmissionStore.Store.InvalidateFormPlans` | core/application_revision.py:15-35 | exactly the live plans of the application are invalidated, and counted |
| `SubmissionStore.Store.BumpApplicationRevision` | core/application_revision.py:38-57 | the revision advances, preparation is cleared and every live plan of the application dies |
| `SubmissionStore.Store.MarkApplicationPrepared` | core/application_mutations.py:274-313 | preparation binds the current revision, or is refused with nothing changed |
| `WriterRules.LockGrantedExactly` | core/application_mutations.py:94-221 | a locked application may change if and only if no attempt decided its fate, it is neither submitted nor (unless being ended) skipped, and no attempt is open but a harmless one that is being ended |
| `WriterRules.PreparesExactlyWhenReviewable` | core/application_mutations.py:274-313 | an application is prepared exactly when it may change and has a reviewable status; prepared already, it stays as it is |
| `WriterRules.PolicyPreparesExactly` | core/automation_policy_service.py:1058-1068 | a policy decision prepares a draft application, once, and is stored with it |
| `WriterRules.EditVoidsPreparation` | core/application_revision.py:38-57 | private content is replaced exactly when the application may change, and everything prepared with the old content is void |
| `SubmissionStore.Store.EnterCommitBoundary` | worker/submission_commands.py:740-935 | the transaction does what the boundary rules say: under a held claim, everything is checked twice around the governor; the attempt commits with its permit spent and its lease renewed, or is closed before commit under the mapped reason, or a lost claim changes nothing |
| `CommitRules.CommitsExactlyWhenGuarded` | worker/submission_commands.py:740-935 | in any step an attempt enters committing if and only if its worker holds the claim, everything reviewed stands, and source, authority, snapshot, permit and action pass both rounds with the governor agreeing between them; then only its stage, permit and lease change |
| `CommitRules.RefusedIsClosed` | worker/submission_commands.py:391-406 | a worker not let through closes its attempt before commit, unspent, for the stale source, for the governor's denial or under the code of what the failing round found; if what was reviewed is gone, nothing changes |
| `SubmissionStore.Store.SkipApplication` | core/application_mutations.py:330-423 | a skip cancels only pre-commit work, together with its command, and is refused after the boundary |
| `WriterRules.SkipEndsApplication` | core/application_mutations.py:316-423 | a skip is let through exactly when nothing was decided or may have crossed; application and job end skipped, an open attempt is cancelled with its command, and everything prepared is void |
| `WriterRules.ClaimsExactlyWhenQueued` | worker/submission_commands.py:168-260 | a pending command is claimed exactly while its attempt is queued, and takes it into inspection |
| `WriterRules.MovesExactlyForward` | core/submission_state.py:15-40 | an attempt moves on exactly along the allowed stages, pending before the boundary and running after it |
| `WriterRules.FinishesExactlyWhenAllowed` | worker/submission_commands.py:263-388 | an attempt is closed exactly when its stage allows the outcome and a confirmation has matching evidence; attempt, application, job and command end together as the outcome says |
| `SubmissionStore.Store.PersistInspectedFormPlan` | core/form_plan_persistence.py:115-231 | a new plan replaces every live one and resets preparation; a repeat changes nothing |
| `WriterRules.InspectsExactlyWhenObservable` | core/form_plan_persistence.py:115-231 | an inspection is persisted exactly when the application may change and the observation is about it as it is; a new plan becomes the only live one and voids the approval |
| `ProtocolChecks.StepKeeps` | db/models.py:469-633 | every step of the protocol keeps the CHECK constraints and foreign keys of attempts, commands and evidence, gapless numbers, one unfinished attempt, row links, revisions and plan lifetimes, and loses nothing on record |
| `ProtocolChecks.FinishChecks` | db/models.py:516-607 | closing an attempt keeps the evidence constraints: a confirmation is taken only with complete columns and a matching evidence row |
| `ProtocolChecks.AuthorityRows` | db/models.py:485-503 | an admitted attempt names exactly the authority its kind demands, under digests that exist |
| `ProtocolRuns.UnusedIsOk` | db/models.py:469-648 | runs may start from any database in which nothing has been inspected or admitted |
| `ProtocolRuns.AtMostOneCommit` | core/submission_state.py:15-64 | in every run, all attempts of an application that are ever committing are one attempt |
| `ProtocolRuns.CommitsOnce` | worker/submission_commands.py:740-935 | in every run, once an attempt of an application has crossed the boundary, no attempt of it crosses again, that one included |
| `ReviewedRuns.EveryAttemptWasAdmissible` | core/submission_service.py:629-926 | every attempt in any state of any run was admitted by an earlier step, when its request met every rule of admission |
| `ReviewedRuns.EveryCommitWasReviewed` | worker/submission_commands.py:740-935 | no run takes an attempt across the boundary unless it was so admitted before and its worker meets every guard now, the governor's included |
| `ProtocolRuns.CommitClosesApplication` | core/submission_service.py:661-704 | a committed attempt finishes unknown or confirmed, and from then on every later admission of that application is refused |
| `ProtocolRuns.ReplayForever` | core/submission_service.py:317-345 | in every later state a repeated request returns the original ids and changes nothing, and a changed binding is refused |
| `ProtocolRuns.PermitHoldsUntilSpent` | core/submit_permits.py:78-147 | in every later state a permit validates exactly while unspent and unexpired; its expiry never moves later and a spent permit stays spent |
| `ProtocolRuns.NumbersAreGapless` | core/submission_service.py:758-766 | attempt numbers of an application are exactly one up to the last |
| `ProtocolRuns.RevisionsStayCurrent` | core/application_mutations.py:94-221 | at most one live plan per application, preparation absent or current, and unfinished attempts carry the current revision |
| `ProtocolRuns.CountedInEveryRun` | db/models.py:521-607 | in every run the schema constraints hold, so query and predicate disagree only on an attempt the query accepts with an invisible text |
| `ReviewGrants.MintedGrantValidates` | core/control_plane_review_permits.py:333-394 | a minted grant is accepted until it expires while its rows stand |
| `GrantRules.MintedExactlyWhenReviewed` | core/control_plane_review_permits.py:246-330 | a grant is minted exactly when the review stands, names this CV and profile and can be stored; the row lasts as asked for and never past its plan |
| `GrantRules.MintingSupersedes` | core/control_plane_review_permits.py:290-330 | minting adds the grant and makes exactly the live ones of the application give way, or changes nothing |
| `GrantRules.AcceptedExactlyWhenCurrent` | core/control_plane_review_permits.py:333-394 | a grant is accepted if and only if it is unrevoked, unspent, unexpired and equal to the current rows in every bound column |
| `GrantRules.RefusalsTellWhy` | core/control_plane_review_permits.py:360-368 | a wrong, revoked, spent or expired grant is refused as exactly that, in this order |
| `GrantRules.SpendsExactlyWhenAcceptable` | core/control_plane_review_permits.py:397-411 | a command spends a grant exactly when it is acceptable and the reference is long enough; no other row changes |
| `GrantRules.ConsumptionIsFinal` | core/control_plane_review_permits.py:397-411 | in every run a spent grant stays spent by the same command at the same time |
| `GrantRules.SpentAtMostOnce` | core/control_plane_review_permits.py:365-411 | no run spends a grant twice |
| `GrantRules.OnlyDueWorkIsHandedOut` | core/control_plane_review_permits.py:414-649 | in every run a projection is handed out only of an unspent, unrevoked, unexpired grant that is due and in nobody's live lease, and a tombstone only of a revoked one |
| `GrantRules.WaitingWorkIsHandedOut` | core/control_plane_review_permits.py:414-480 | a runner gets no projection exactly when its name is unusable, a tombstone is owed or nothing waits; only abandoned leases and the row handed out change |
| `GrantRules.WaitingTombstonesAreHandedOut` | core/control_plane_review_permits.py:582-649 | a runner gets no tombstone exactly when its name is unusable or none waits; only abandoned leases, lapsed tombstones and the row handed out change |
| `GrantRules.SweptExactlyWhenAbandoned` | core/control_plane_review_permits.py:436-452 | the sweeps select exactly leases older than thirty seconds and lapsed waiting tombstones |
| `GrantRules.LeasesEndByTheirToken` | core/control_plane_review_permits.py:523-743 | a delivery is ended exactly by the token that leased it: marked done, back in the queue in ten seconds, or retired |
| `ReviewGrants.StepKeepsOk` | core/control_plane_review_permits.py:246-743 | every grant step keeps the CHECK rules, one live grant per application, no grant both revoked and consumed, and token ownership |
| `ReviewGrants.ProjectionWaitsForTombstones` | core/control_plane_review_permits.py:414-480 | whenever any run hands out a projection, every other grant of the application is consumed, has its tombstone delivered, or has expired |
| `ReviewGrants.StaleTokensArePowerless` | core/control_plane_review_permits.py:523-579 | once a lease is reclaimed, its token changes nothing in any later state |
| `GrantOutbox.ReviewGrantOutbox.MintGrant` | core/control_plane_review_permits.py:246-330 | minting revokes every live grant of the application and adds the new one, or refuses and changes nothing |
| `GrantOutbox.ReviewGrantOutbox.SupersedeLiveGrants` | core/control_plane_review_permits.py:290-303 | exactly the live grants of the application are revoked, with a pending tombstone or an expired one when the grant had already lapsed |
| `GrantOutbox.ReviewGrantOutbox.ConsumeGrant` | core/control_plane_review_permits.py:397-411 | a valid grant is consumed, an invalid one is refused and unchanged |
| `GrantOutbox.ReviewGrantOutbox.FirstDueProjection` | core/control_plane_review_permits.py:453-470 | the due grant with the earliest availability, ties by id, or none when none is due |
| `GrantOutbox.ReviewGrantOutbox.ClaimProjectionLease` | core/control_plane_review_permits.py:414-480 | stale leases return, and the first due grant is claimed |
| `GrantOutbox.ReviewGrantOutbox.MarkGrantProjected` | core/control_plane_review_permits.py:523-546 | only the holder of the lease can mark the grant projected |
| `GrantOutbox.ReviewGrantOutbox.ReleaseProjectionLease` | core/control_plane_review_permits.py:549-579 | only the holder can release, with a bounded reason |
| `GrantOutbox.ReviewGrantOutbox.FirstDueRevocation` | core/control_plane_review_permits.py:621-638 | the due tombstone with the earliest availability, ties by id, or none |
| `GrantOutbox.ReviewGrantOutbox.ClaimRevocationLease` | core/control_plane_review_permits.py:582-649 | stale leases return, lapsed tombstones retire, and the first due one is claimed |
| `GrantOutbox.ReviewGrantOutbox.MarkRevocationDelivered` | core/control_plane_review_permits.py:682-707 | only the holder of the lease can mark delivery |
| `GrantOutbox.ReviewGrantOutbox.ReleaseRevocationLease` | core/control_plane_review_permits.py:710-743 | only the holder can release; a lapsed tombstone retires instead of waiting again |
| `RestoreRuntime.RestoredTables.RevokePolicies` | core/restore_safety.py:148-155 | every active policy row is revoked, the others are unchanged, and the count is exact |
| `RestoreRuntime.RestoredTables.CloseInspections` | core/restore_safety.py:157-168 | every unfinished inspection is closed; count and affected applications are exact |
| `RestoreRuntime.RestoredTables.InvalidateLivePlans` | core/restore_safety.py:170-177 | every live plan is invalidated; count and affected applications are exact |
| `RestoreRuntime.RestoredTables.ExpirePermits` | core/restore_safety.py:179-187 | every live unconsumed permit expires now; count and affected applications are exact |
| `RestoreRuntime.RestoredTables.RevokeGrants` | core/restore_safety.py:189-200 | every unconsumed grant is revoked and its tombstone rearmed; both counts are exact |
| `RestoreRuntime.RestoredTables.CancelCommands` | core/restore_safety.py:202-216 | every active command is cancelled; count and affected applications are exact |
| `RestoreRuntime.RestoredTables.CloseAttempts` | core/restore_safety.py:218-260 | open attempts close on the safe side, and the indeterminate reason wins whatever order the rows come in |
| `RestoreRuntime.RestoredTables.MoveApplications` | core/restore_safety.py:262-298 | exactly the affected applications and their jobs move to review, and those that change are counted |
| `RestoreRuntime.RestoredTables.QuarantineRestoredRuntime` | core/restore_safety.py:116-311 | the whole procedure transforms every table as specified and returns the specified counts |
| `RestoreRuntime.AffectedInAnyOrder` | core/restore_safety.py:133-260 | the reasons collected pass by pass are those of the specification, whatever each pass saw first |
| `Quarantine.QuarantineKillsAuthority` | core/restore_safety.py:148-216 | no active policy, unfinished inspection, live plan, live permit, usable grant or active command is left |
| `QuarantineRows.ReviewsExactlyWhatWasAtWork` | core/restore_safety.py:262-296 | an application goes back for review, with its job, exactly when something was at work for it and the employer has not confirmed it; as indeterminate exactly when an open attempt of it may have crossed |
| `QuarantineRows.OtherJobsStay` | core/restore_safety.py:262-296 | a job changes only with one of its applications |
| `QuarantineRows.UsableRowsEnd` | core/restore_safety.py:148-216 | active policies, live plans, live permits and active commands end now in the name of the restore |
| `QuarantineRows.SettledRowsStay` | core/restore_safety.py:116-311 | every settled row of every table is left exactly as it was, and no row is lost or added |
| `QuarantineRows.OpenAttemptsAreClosed` | core/restore_safety.py:218-260 | an open attempt ends unknown and indeterminate if it may have crossed, failed before commit otherwise, in every column |
| `QuarantineRows.GrantsEndRevoked` | core/restore_safety.py:86-113 | a spent grant is left alone, any other ends revoked with a tombstone at rest or put back to work free of leases |
| `QuarantineRows.CountsAreChanges` | core/restore_safety.py:116-311 | every number of the summary is the number of rows of its table that changed |
| `Quarantine.QuarantineClosesAttempts` | core/restore_safety.py:218-260 | proven and finished attempts are untouched; the others become unknown exactly when they may have crossed the boundary, else failed before commit |
| `Quarantine.QuarantineRearmsTombstones` | core/restore_safety.py:86-113 | every unconsumed grant ends revoked, with its tombstone delivered already, pending, or expired with nothing left to revoke |
| `Quarantine.QuarantinedEvidence` | core/restore_safety.py:70-76 | the quarantine neither makes nor loses employer proof, and leaves no attempt open |
| `Quarantine.QuarantineIsIdempotent` | core/restore_safety.py:116-311 | running it again at the same time changes nothing and counts nothing |
| `Governor.StepKeeps` | core/governor.py:198-246 | every step of every worker, operator stop and clock tick keeps the governor's invariant |
| `Governor.ReadyToGrant` | core/governor.py:211-242 | an undisturbed worker that reaches EXEC may be granted, even if midnight passed while it was reading |
| `Governor.DailyCapHolds` | core/governor.py:226-242 | in every interleaving the day counter is the number of grants counted for that day and never exceeds the cap |
| `Governor.StampsKeepTheGap` | core/governor.py:230-242 | LinkedIn grants stamp their gaps at least the minimum apart |
| `Governor.ExecutionsKeepTheGapLessDelay` | core/governor.py:230-242 | executions are apart by the minimum gap less the earlier worker's delay between stamp and EXEC |
| `Governor.LiveReservationCountsOnce` | core/governor.py:224-242 | while a reservation lives its identifier is not granted again |
| `Governor.AllowedMeansGranted` | core/governor.py:224-243 | whatever an allowed worker was told, a grant of its reservation executed |
| `Governor.StopsPreventGrants` | core/governor.py:217-223 | no grant executes while killed or in cooldown |
| `Governor.TouchedWorkersStartOver` | core/governor.py:207-246 | a worker whose watched keys were touched executes nothing, starts over, and gives up after five tries |
| `GovernorPaths.UncontendedRun` | core/governor.py:198-246 | a worker nobody disturbs is told the verdict of the store it started from and executes at most its own grant |
| `GovernorPaths.MemoryGovernor.ReserveFinalAction` | core/governor.py:137-177 | the locked in-process path returns the specified verdict and writes exactly a grant's keys |
| `GovernorPaths.MemoryGovernor.ReservationPolicy` | core/governor.py:179-196 | stops, cap and gap are checked in order against the current store |
| `GovernorPaths.EntersExactly` | core/governor.py:137-156 | a reservation enters exactly with an identifier of one to 128 characters inside active hours |
| `GovernorPaths.FallbackAgrees` | core/governor.py:137-246 | the in-process path allows what an uncontended shared run allows if and only if it is not a lapsed reservation it still remembers while limits refuse |
| `GovernorPaths.FallbackRemembersTooLong` | core/governor.py:137-246 | a run of two requests after which the fallback still allows the first and a worker of its own is refused |
| `GovernorPaths.LateExecutionClosesTheGap` | core/governor.py:234-242 | for every delay up to the gap there is a run whose executions are closer by that delay |
| `GovernorPaths.SpacedExactlyWhenPrompt` | core/governor.py:230-242 | with workers at most so late, executions are sure to be spaced if and only if none is late at all |
| `Cooldowns.ChallengeStore.TripCooldown` | core/governor.py:253-262 | one trip alone counts itself, reads the clock and sets the cooldown by the hours it counted |
| `Cooldowns.HoursDouble` | core/governor.py:253-262 | the cooldown is six, twelve, twenty-four and from the third counted trip forty-eight hours |
| `Cooldowns.WriteShortensExactly` | core/governor.py:253-262 | in every interleaving a write shortens the cooldown if and only if its clock reading follows the previous writer's by less than the shortfall of its hours |
| `Cooldowns.HarmlessCount` | core/governor.py:256-257 | a counter reading is harmless whatever the time if and only if it stands for at least as many hours as the previous writer's |
| `Cooldowns.OvertakenTripShortens` | core/governor.py:253-262 | a trip overtaken after counting itself shortens the cooldown with no stale read and no time passing |
| `Cooldowns.StalledTripShortens` | core/governor.py:253-262 | serialized trips shorten it too when one stalls past 126 hours |
| `Cooldowns.NeverShortensExactlyWhenSerial` | core/governor.py:253-262 | over all interleavings, trips are sure never to shorten the cooldown if and only if they are serialized and none stalls past 126 hours |
| `PolicyLimits.PolicyService.UsageCounts` | core/automation_policy_service.py:748-769 | the three counting queries return the specified usage |
| `PolicyLimits.PolicyService.Weigh` | core/automation_policy_service.py:936-1032 | the reasons collected gate by gate, each kept where it first came, and the authority expiry are those of the specification |
| `PolicyLimits.Unique` | core/automation_policy_service.py:1026-1027 | repeated reasons are dropped and nothing else |
| `PolicyLimits.PolicyService.EvaluateAutoSubmitPolicy` | core/automation_policy_service.py:911-1058 | evaluation returns the existing allowed decision, refuses, or stores a new decision, as specified |
| `PolicyRules.AllowedExactlyWhenUnopposed` | core/automation_policy_service.py:936-1032 | a new decision allows if and only if no kill switch stops, it is inside active hours, no gate objects and each window holds fewer allowed decisions than its limit; its authority ends with the earliest of policy, closing time and five minutes |
| `PolicyRules.EveryAllowedDecisionWasUnopposed` | core/automation_policy_service.py:868-1075 | in every run each allowed decision was made by an evaluation of that candidate with nothing against it at the time |
| `PolicyRules.RecordedExactlyWhenSame` | core/automation_policy_service.py:911-930 | an application with an allowed decision is answered with it exactly under the same policy, revision, plan, profile and artifacts |
| `PolicyRules.ActivationTakesForce` | core/automation_policy_service.py:410-515 | a policy takes force exactly when its terms are in range, replaces the one before and lasts its days |
| `PolicyRules.RevocationEndsForce` | core/automation_policy_service.py:518-536 | revoking needs an active policy and leaves none in force |
| `PolicyRules.SwitchObeys` | core/automation_policy_service.py:550-591 | the kill switch is as it was last set; only a remote resume, a remote order without command and a reused command are refused |
| `PolicyRules.UsableExactly` | core/automation_policy_service.py:1078-1125 | a decision may be acted on exactly while allowed, unexpired, under the policy in force, unstopped and in active hours |
| `AutopilotRuns.Autopilot.EvaluateAutoSubmitPolicy` | core/automation_policy_service.py:868-1075 | decision row and application row are written together: an allowed decision prepares the application, a denial leaves the reason for review |
| `EvaluationRules.PreparesExactlyWhenClear` | core/automation_policy_service.py:936-1075 | an evaluation prepares the application and stores authority for it if and only if it is a draft with nothing against it; a denial leaves only the first lasting reason for review |
| `PolicyLimits.LimitsHoldInEveryWindow` | core/automation_policy_service.py:748-769 | whatever policies come and go, every closed hour holds at most 5 allowed decisions, every local day 25, every closed fortnight 2 per company |
| `PolicyLimits.AllowedOnce` | core/automation_policy_service.py:911-930 | an application gets at most one allowed decision, ever |
| `PolicyLimits.AuthorityIsBounded` | core/automation_policy_service.py:1026-1032 | allowed authority is live, granted in active hours, and ends with policy, local closing time or five minutes, whichever is first |
| `PolicyLimits.RevokedStaysPowerless` | core/automation_policy_service.py:1078-1125 | once a policy revision is inactive, no later history makes its decisions usable |
| `PolicyLimits.RemoteKillOnlyStops` | core/automation_policy_service.py:550-591 | in every run each kill command is recorded once and a remote one never resumes or turns an active switch off |
| `PolicyLimits.EvaluationIsIdempotent` | core/automation_policy_service.py:911-930 | asking again under the same policy returns the recorded decision and writes nothing |
| `ExpiryChain.PermitLapsesWithAuthority` | core/submit_permits.py:44-54 | an autopilot permit ends no later than its plan, its decision and the requested deadline |
| `ExpiryChain.ExpiriesNest` | core/submission_domain.py:1856-1884 | an accepted autopilot action is before the action, permit, plan, decision and policy expiries, local closing time, five minutes from evaluation and thirty from plan creation |
| `AutopilotRuns.JointStepKeeps` | core/automation_policy_service.py:1055-1069 | every joint step of policies, evaluations and submissions keeps both invariants, and stored authority is always some allowed decision |
| `AutopilotRuns.UnusedIsJointlyOk` | core/automation_policy_service.py:868-1075 | joint runs may start from any database that meets the invariant and holds no decision or policy |
| `AutopilotRuns.AutopilotStaysInsideItsDeadlines` | core/submission_domain.py:1856-1884 | in every joint run an autopilot admission rests on a decision some evaluation allowed for that application, revision and plan, and its action is accepted only inside every deadline behind that decision |
| `AutopilotCommits.EveryCommitIsInsideItsDeadlines` | worker/submission_commands.py:740-935 | in every joint run, whenever a worker actually commits an autopilot attempt, some evaluation allowed exactly that application, revision and plan, and the commit is inside the action, permit, plan, decision, policy, closing-time and five-minute deadlines |
| `AutopilotCommits.JointStepRests` | core/submission_service.py:725-863 | every joint step keeps each autopilot attempt tied to the decision and plan that admitted it, with its permit ending no later than either |
| `AutopilotCommits.UnusedMayRun` | core/automation_policy_service.py:868-1075 | such runs may start from any database that meets the invariant and holds no attempt, decision or policy |
| `Metrics.PruneEvents` | core/operational_metrics.py:246-285 | what is kept is exactly the newest rows inside the window, up to the cap, and the number removed is exact |
| `Metrics.NewestIsUnique` | core/operational_metrics.py:268-284 | only one set of rows fits that description |
| `Metrics.WindowExactly` | core/operational_metrics.py:246-267 | the window holds exactly the rows of the last ninety days |
| `Metrics.DurationsAreClamped` | core/operational_metrics.py:162-169 | a duration counts as it is between nothing and seven days, else as the nearer of the two |
| `MetricsSession.SessionStore.RecordOperationalEvent` | core/operational_metrics.py:365-469 | a first recording inserts receipt, detail and rollup and asks for pruning; a redelivery changes nothing |
| `MetricsSession.SessionStore.ScheduleOperationalPruning` | core/operational_metrics.py:288-295 | the innermost open transaction's request count grows by one |
| `MetricsSession.SessionStore.EndNested` | core/operational_metrics.py:331-345 | a released savepoint promotes its requests and a rolled-back one discards them |
| `MetricsSession.SessionStore.RollBackSavepoint` | core/operational_metrics.py:323-345 | a rollback restores the tables and the requests of the enclosing transaction |
| `MetricsSession.SessionStore.CommitTransaction` | core/operational_metrics.py:298-320 | open savepoints are released and the outermost request count decides whether detail is pruned |
| `MetricsSession.LevelsEnd` | core/operational_metrics.py:323-345 | a release hands its requests up and keeps the tables, a rollback discards them and puts the tables back, abandoning ends every level |
| `MetricsSession.RollupsCountEachKeyOnce` | core/operational_metrics.py:172-236 | in every run each rollup counts every surviving event key once, under its first labels; its duration sum is exact and its buckets are exact and cumulative |
| `MetricsSession.CommitPrunesWhatItMust` | core/operational_metrics.py:298-348 | a commit prunes exactly when it keeps a new event, then leaves exactly the newest rows in the window; never more than the cap is committed |
| `EmployerTruth.QueryMatchesPredicate` | core/submission_truth.py:76-190 | over rows that meet their CHECKs, the predicate holds exactly when the query does and no identifying text is blank in a way the database cannot see; they disagree exactly when the query accepts such a text |
| `EmployerTruth.TextByCode` | core/submission_truth.py:48-57 | the characters in-process stripping and the database trim, and the digest digits, by code point |
| `EmployerTruth.TabbedNameIsMiscounted` | core/submission_truth.py:125-190 | an adapter name holding one tab is counted by the query and refused by the predicate |
| `Schema.TabbedRowIsHeld` | db/models.py:516-607 | that attempt and its evidence row meet every CHECK and key, so the database can hold them |
| `EmployerTruth.LatestVerifiedCount` | core/submission_truth.py:193-223 | the count is the number of applications whose highest-numbered attempt is verified, plus exactly the highest-numbered attempts the query accepts with an invisible text |
| `CanaryRuns.LiveQualificationIsEarned` | core/adapter_qualification_service.py:793-898 | in every run each live record traces to exactly one confirmed canary attempt and one spent, unexpired authorization minted from a matching dry run |
| `CanaryRuns.OneActiveAuthorization` | core/adapter_qualification_service.py:539-630 | an application never has two active authorizations |
| `CanaryRules.DryRunRecordedExactly` | core/adapter_qualification_service.py:259-345 | a dry run is recorded exactly when page and plan are ready, as one good record |
| `CanaryRules.MintsExactlyFromGoodDryRun` | core/adapter_qualification_service.py:539-630 | a canary is minted exactly from a good dry run of the same page and form when none of the application is unspent, and then stands |
| `CanaryRules.ValidatesExactlyWhenItHolds` | core/adapter_qualification_service.py:633-714 | an authorization validates exactly when it is untampered, current and about this very action, and its dry run stands |
| `CanaryRules.EarnsExactlyWhenConfirmed` | core/adapter_qualification_service.py:793-898 | a canary earns one live record exactly when the employer confirmed it and its spent authorization holds otherwise |
| `CanaryRuns.UnusedChainIsOk` | core/adapter_qualification_service.py:539-898 | qualification runs may start, at any time, from any database in which nothing has been inspected, admitted or qualified |
| `Planner.PlanFields` | core/form_planning.py:746-880 | one decision per field in order, from the first source that has one; a model identity exactly when a model answer is used, shared by all; blocked exactly when a required field is unresolved; no CV or model answer on review-only fields; only enabled options; open fields say why, and the blockers are exactly those of open required fields and of model answers that could not be kept |
| `Planner.PlanOne` | core/form_planning.py:757-871 | the loop body extends the plan as specified |
| `PlannerValues.CoercedExactly` | core/form_planning.py:400-458 | a value is coerced to an answer if and only if that is what it says to the control: a number its value, a flag what the text affirms or denies, a choice the one enabled option it names, a text its stripped rendering |
| `PlannerValues.OnePickedExactly` | core/form_planning.py:400-458 | a text picks an option exactly when all enabled options it names have one value |
| `PlannerValues.AnswersComeFromTheFirstSource` | core/form_planning.py:746-880 | an answered field has what the first source that has an answer says, with its citation; an open one has none, or a model's without the plan's identity |
| `PlannerValues.ValidatedExactly` | core/submission_domain.py:1597-1769 | validation accepts what the planner planned if and only if frame and identifiers are in order, the model identity is qualified and every answered field may hold its answer, said of the values and constraints |
| `Planner.CoercedAnswersAreEnabled` | core/form_planning.py:400-458 | coerced answers name only enabled options |
| `Planner.ValidationPassesExactly` | core/submission_domain.py:1597-1769 | plan validation accepts the planner's answers if and only if field identifiers differ, the model identity is qualified, no review-only field is answered from identity, attachment or a fact under another key, an attachment has a compatible name, every value meets its constraints, and lifetime, size and disclosures are in order |
| `Planner.CoercedAnswersAreTyped` | core/submission_domain.py:1413-1472 | coerced answers have the type of their control |
| `Planner.NumberBelowMinimumIsRejected` | core/submission_domain.py:1421-1435 | a confirmed three on a number field with minimum five is planned and then rejected |
| `Planner.IdentityOnReviewOnlyIsRejected` | core/submission_domain.py:1676-1685 | an identity value on a scoped review-only field is planned and then rejected |
| `Planner.FamilyNameOnConsentIsRejected` | core/submission_domain.py:1676-1685 | the family name No on a consent control is planned as a refusal from identity and then rejected |
| `Planner.UnnamedConsentIsRejected` | core/submission_domain.py:1699-1714 | a confirmed fact on a consent control without a canonical name is planned and then rejected |
| `Planner.SelectedCvFacts` | core/form_planning.py:146-175 | a fact survives exactly when every admissible record of its key agrees |
| `Deduper.BoundedDeduper.Prune` | bridge/archive_dedup.js:25-34 | the two in-place loops drop exactly the expired entries and then the oldest beyond capacity |
| `Deduper.BoundedDeduper.HasValue` | bridge/archive_dedup.js:37-47 | a hit moves the entry to the recent end with its time unchanged |
| `Deduper.BoundedDeduper.AddValue` | bridge/archive_dedup.js:48-55 | the value is last with the current time and the index is pruned |
| `Deduper.SettingsDefault` | bridge/archive_dedup.js:5-23 | a setting left at zero is ten thousand entries or a day, any other is at least one |
| `Deduper.DedupesWithinItsLimits` | bridge/archive_dedup.js:25-65 | size never exceeds capacity; a value is found only within its time to live, and always then if fewer than capacity others were touched since |
| `Scheduler.ArchiveScanScheduler.Handle` | bridge/archive_scan_scheduler.js:64-163 | every call, timer firing and await of a pass changes the closure state as specified |
| `Scheduler.RunsStayOrderly` | bridge/archive_scan_scheduler.js:64-163 | in every run of a constructed scheduler at most one pass runs, the host has no timer pending but the one the handle names, a timer is pending only while active, and an active scheduler always waits for a timer or a pass |
| `Scheduler.DisabledStaysIdle` | bridge/archive_scan_scheduler.js:139-158 | a scheduler that is not enabled never begins a pass or waits for one, whatever it is asked |
| `Scheduler.RepeatedCallsAreHarmless` | bridge/archive_scan_scheduler.js:139-158 | starting again while active, or asking for a pass during one, changes nothing under way |
| `Scheduler.EndedPassSchedules` | bridge/archive_scan_scheduler.js:64-137 | a pass that ends leaves a timer exactly when the scheduler is active and the wait that applies is not zero, else it is inactive |
| `Scheduler.ExactlyTheConfiguredPasses` | bridge/archive_scan_scheduler.js:64-137 | an uninterrupted start without interval makes exactly the configured number of passes and goes idle; every step uses up work, so it gets there |
| `Scheduler.PassAddsUp` | bridge/archive_scan_scheduler.js:104-121 | a pass reports the sum of its messages, any lost pagination and whether any scan failed |

## Left out

- Web application, middleware, dashboards and metric exporters: reporting over the tables modelled here.
- WhatsApp client, browser pages and HTTP forwarding: foreign libraries.
- Signatures, key files, SHA-256 and snapshots on disk: signatures count as valid and digests as collision-free.
- Sensitive-text, prompt-injection, label and text-normalization rules: flags and functions supplied to the models.
- JSON encoding, coercion by the validation library and byte-size limits; value formats of dates, addresses, phone numbers and links are a function supplied to the planner.
- Unicode digits in pattern quantifiers: digits are ASCII.
- Time zones: the local calendar is a parameter, of which only "midnight is not after the instant" is assumed.
- Row locks: a transaction is one atomic step; a batch that loses a race must clash at a unique rule, and what the winner committed is an input.
- SubmissionStore.Store.EnterCommitBoundary: whether the source is current, the attempt's authority still stands, its snapshot is intact and the governor agrees are inputs, and the governor's own reservation is a machine of its own.
- Restoring an older backup as such: the model quarantines the tables it has; commits made after a backup was taken are not in it.
- Worker execution, operator reconciliation and the hosted control plane beyond the stage transitions and the commit transaction.
- Truncation of reason codes to 64 characters, except in the grant outbox.
- `record_application` and the outbound-message counters of the governor: only reservations count.
- Active hours in the shared governor: a run may begin a reservation at any time, so its results do not depend on them; the text of the remaining gap is not modelled.
- Key expiry in Redis: an expired watched key may abort a worker at any time.
- Reentrant `onState` callbacks of the scheduler, and its timestamps.
- `size` and `keys` of the deduper: they only prune, as a miss does.
- Row identifiers of metric events after a rollback: the model reuses them; only their order matters.
- Canary qualification rows are added to a value of the database rather than to an object in place; aliasing of rows is not modelled there.
- Planner.ValidationPassesExactly: the serialized size of the plan is a flag.
- Unique canary authorizations per attempt belong to `CanaryRuns`; policy-decision, form-plan and permit CHECKs other than those named above are not modelled.
