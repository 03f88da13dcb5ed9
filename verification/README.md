# Verified model of the 6S issue service

This project models the stateful protocols of the service in Dafny and proves what they keep over whole
runs. Each SQL statement or transaction is one atomic step over finite maps and sequences; workers, requests,
crashes and the clock interleave freely. Code that changes tables or in-memory state step by step is a class
whose methods are proved against functions on a snapshot of that state, and the main theorems are about
those functions. `dafny verify dfyconfig.toml` checks everything.

| module | models |
|---|---|
| `OutboxTable`, `OutboxProtocol`, `OutboxLease`, `OutboxFallback`, `OutboxOverrun`, `OutboxBudget`, `OutboxStart`, `OutboxLateness`, `OutboxSends`, `OutboxResends`, `OutboxWorker` | the notification outbox: claims under a lease, retries with backoff, the channel fallback, cancellation on deletion |
| `TeamLocations` | periods of teams at locations |
| `ScoreRepricing`, `ScoreLedger` | retroactive repricing of the score ledger |
| `IssueTable`, `IssueService`, `IssueRuns`, `IssueReview`, `IssueAudit`, `IssueStatus`, `IssueRequests`, `IssueScores`, `IssueTrail` | the issue lifecycle with versions, scores and the audit trail |
| `RefreshTokens` | refresh-token rotation and reuse detection |
| `Migrations` | the migration manifest, ledger and competing runners |
| `EventAudience`, `EventHub` | who may see an issue event, and the streams that carry it |
| `TagMerge` | merging tags |
| `SlotLimiter`, `LoginLimiter` | the AI request slots and the login limiter |
| `TranslationLookup`, `ColumnNames` | batched translation look-up, spreadsheet column names |
| `Options`, `Sets` | shared helpers |

## Where the code does less than it may seem to

Each of these is a theorem here, with the exact condition or a run that shows it.

- A worker that outlives its 120 s lease on a row, by however little, lets another one claim it
  (`OutboxOverrun.SecondHolderIff`), and then the row may get two fallbacks (`OutboxLateness.OneFallbackIff`).
  Within the leases one failed MarkOutboxFailed call does the same, because the worker logs the error and goes on
  to the fallback (`OutboxOverrun.LostFailureIff`). One holder and the retry budget do not depend on store calls
  (`OutboxFallback.LeaseTheorem`), and the budget survives every lateness below 15 s, but not one of 15 s
  (`OutboxLateness.BudgetIff`).
- A send whose outcome is not recorded, because the call that records it fails or the worker crashes before it, is
  repeated after the lease: a row may be sent any number of times, each time delivered
  (`OutboxResends.EndlessSends`). It is sent at most max_retries times plus once for every outcome lost
  (`OutboxSends.SendsAreBounded`), and no better bound holds (`OutboxResends.SendsIff`). With nothing lost, one late
  holder of the last attempt suffices for one send too many (`OutboxResends.LateSendsIff`).
- A revoked refresh token may be presented without ending the user's sessions if the look-up of the reused token
  fails, which is answered like a token never issued (`RefreshTokens.UnnoticedReplay`); otherwise it ends them unless
  the revocation itself fails (`RefreshTokens.ReplayEndsSessions`).
- Unassigning a team at the very instant of its assignment violates the table's CHECK and is refused, so the
  table is the history of all calls exactly when none is refused (`TeamLocations.ExactIffNoneRefused`).
- A repricing misses a target's points by exactly the adjustments that clash on issue and date with each
  other or with any adjustment in the ledger, inside the window or not, and those of logs that were not read:
  the logs are read outside the transaction, so an issue restored, or a score added, between the two stays at
  the old points (`ScoreLedger.RepricingConserves`, `ScoreLedger.RestoredIssueKeepsOldPoints`).
- A close without an expected version, or with a version later than the one read (later than the next, if the
  issue was read deleted), may close the closer's own work (`IssueReview.ReviewedIff`).
- A responsibility request whose expected version is later than the one it read can break the chain of
  assignment rows (`IssueAudit.ChainedIff`).
- Stored merge codes alone may cycle once a merged tag is approved again (`TagMerge.CodesAloneMayCycle`), exactly
  when a merge's target already leads back to its source (`TagMerge.CodesStayAcyclicIff`); through merged tags
  they cannot (`TagMerge.MergedTagsLeadOut`). Nothing keeps a merged tag from being put on an issue, and only
  that gives an issue one (`TagMerge.StepKeepsNoneIff`).
- The account lock counts the failures that were young at the last passed check, so it may come early, never
  late (`LoginLimiter.LocksEarlyIff`).
- For a zero site id the recipients' query and the per-user check differ on location leaders
  (`EventAudience.AgreeIff`).

Assumed of the database: rows are created by sequences with increasing ids, CURRENT_TIMESTAMP does not go
back in commit order, and the unique and exclusion constraints of `sql/schema.sql` and
`internal/database/migrations/000022_location_relocation.up.sql` hold.

## Model

| member | source | states |
|---|---|---|
| `OutboxTable.BackoffFitsInt32` | internal/notification/worker.go:125-129 | the retry delay 5·3^(retry_count+1) fits int32 exactly for retry_count up to 17 |
| `OutboxTable.FirstDueIsPrefix` | internal/db/queries.sql.go:139-149 | a claim takes the due rows with the smallest ids, at most the limit, and none exactly when none is due |
| `OutboxTable.ClaimOneByOne` | internal/db/queries.sql.go:139-149 | claiming a batch is claiming its rows one after the other at one instant, so the protocol may claim single rows |
| `OutboxTable.ZeroLoadIffSettled` | internal/notification/worker.go:101-131 | the termination measure is zero exactly when every row is SENT, FAILED or CANCELLED |
| `OutboxTable.LoadSet` | internal/notification/worker.go:101-131 | replacing one row changes the measure of the table by the difference of the two weights |
| `OutboxProtocol.SanePreserved` | internal/notification/worker.go:101-131 | every step of any worker, request, crash or clock keeps: rows belong to issues, deleted issues have no live row, SENT rows were delivered, FAILED rows bounced, claims are honest about their rows |
| `OutboxProtocol.SaneRun` | internal/notification/worker.go:67-131 | the same over every run, stale workers, store failures and crashes included |
| `OutboxProtocol.SettledIsFinal` | internal/db/queries.sql.go:4089-4109 | a SENT, FAILED or CANCELLED row is never changed again in any run, whoever still holds a claim on it |
| `OutboxProtocol.DeletedIssueIsSilent` | internal/db/issue_tx.go:84-104 | in every run a soft-deleted issue has no PENDING or SENDING row; SENT implies a successful and FAILED a failed delivery |
| `OutboxProtocol.CancelledByDeletion` | internal/db/queries.sql.go:127-132 | in every run a row is CANCELLED only by a deletion of its issue |
| `OutboxProtocol.ClaimAlone` | internal/notification/worker.go:101-131 | a claim that nothing disturbs leaves its row SENT after a good send; after a bad one PENDING with one retry more and due after the backoff, or, after the last attempt, FAILED, with a fresh LAN_WEBHOOK row for a WXPUSHER one; and nothing else of the table changes |
| `OutboxProtocol.EveryDelayFits` | internal/notification/worker.go:125-129 | in every run, at any lateness, a delay about to be used is 15 s, 45 s, 135 s or 405 s after no, one, two or three retries, so its conversion to int32 is exact |
| `OutboxLease.EveryStep` | internal/notification/worker.go:101-131 | every step of the protocol does one of five things to a row and its holders: nothing but a cancellation, a claim, a holder letting go, its creation, or nothing at all |
| `OutboxLease.RunKeepsLeased` | internal/notification/worker.go:101-131 | a row whose holders stay within the lease keeps one holder and a retry left while live, in every run, store failures and crashes included |
| `OutboxFallback.RunKeepsOneFallback` | internal/notification/worker.go:112-124 | if also its failures are recorded, it keeps one claim, and one fallback at most, which comes after the last claim |
| `OutboxFallback.LeaseTheorem` | internal/notification/worker.go:101-131 | both from an empty outbox, row by row: the lease alone gives one holder and the retry budget; with its MarkOutboxFailed calls stored, also at most one fallback, of a WXPUSHER row that is given up |
| `OutboxOverrun.SecondHolderIff` | internal/db/queries.sql.go:139-149 | after some time nobody can become a second holder of any row exactly when that time is within the lease of every holder whose row is SENDING |
| `OutboxOverrun.SecondFallbackIff` | internal/notification/worker.go:112-124 | after some time an orderly run gives the row of a last attempt two fallbacks exactly when that time overruns the lease of its holder |
| `OutboxOverrun.LostFailureIff` | internal/notification/worker.go:112-124 | within the leases, such a row may get two fallbacks exactly when its MarkOutboxFailed call fails, since the code goes on to the fallback all the same |
| `OutboxBudget.RunStaysPaced` | internal/notification/worker.go:125-129 | with everybody less than 15 s late, every run keeps how the stale holders of a row relate to its count and due time, from which the budget follows |
| `OutboxLateness.SingleHolderIff` | internal/db/queries.sql.go:139-149 | all runs from an empty outbox keep one holder per row exactly when nobody is late at all |
| `OutboxLateness.OneFallbackIff` | internal/notification/worker.go:112-124 | all such runs with failures recorded keep one fallback per row exactly when nobody is late at all |
| `OutboxLateness.BudgetIff` | internal/db/queries.sql.go:4517-4522 | all such runs keep retry_count below max_retries on live rows exactly when everybody is less than 15 s late, store failures and crashes included |
| `OutboxLateness.BudgetExceeded` | internal/db/queries.sql.go:4517-4522 | from an empty outbox, a run with holders at most 15 s late that leaves a PENDING row with retry_count equal to max_retries |
| `OutboxLateness.LostFailureDoublesFallback` | internal/notification/worker.go:112-124 | from an empty outbox, a run without any overrun lease but with one failed MarkOutboxFailed call that gives a row two fallbacks |
| `OutboxSends.SendsAreBounded` | internal/notification/worker.go:101-131 | in every run, failures and crashes included, a row within its leases is sent at most max_retries times plus once per lost outcome, and while it waits exactly retry_count times plus those; with nothing failing or crashing under it no outcome is lost, and while SENDING it is in the hands of a worker |
| `OutboxResends.SendsIff` | internal/notification/worker.go:106-110 | over all runs without a late holder, a row is sent at most so much oftener than max_retries exactly when at most so many outcomes are lost, so at most max_retries times exactly when none is |
| `OutboxResends.EndlessSends` | internal/notification/worker.go:106-110 | for every n, a run without a late holder in which a row is sent n times, and delivered each time, because its MarkOutboxSent calls fail |
| `OutboxResends.LateSendsIff` | internal/db/queries.sql.go:139-149 | with nothing failing or crashing under it, a row is sent at most max_retries times in all runs exactly when nobody is late at all |
| `OutboxWorker.Store.ClaimOutboxTasks` | internal/db/queries.sql.go:139-149 | returns the claimed rows, each once, SENDING and due in 120 s, in no promised order |
| `OutboxWorker.Store.RetryOutboxTask` | internal/db/queries.sql.go:4517-4522 | reschedules only a row that is still SENDING on an active issue |
| `OutboxWorker.Store.MarkOutboxSent` | internal/db/queries.sql.go:4105-4109 | settles only a row that is still SENDING on an active issue |
| `OutboxWorker.Store.MarkOutboxFailed` | internal/db/queries.sql.go:4089-4095 | settles only a row that is still SENDING on an active issue |
| `OutboxWorker.Store.CreateOutboxEntry` | internal/db/queries.sql.go:589-594 | adds a row that is PENDING, due at once and has five attempts, or nothing for a deleted issue |
| `OutboxWorker.Store.CancelPendingOutboxForIssue` | internal/db/queries.sql.go:127-132 | row by row, cancels exactly the live rows of the issue and leaves every other row as it was |
| `OutboxWorker.Store.DeleteIssue` | internal/db/issue_tx.go:84-104 | flag and cancellation commit together: no row of the issue is live afterwards, every other row is as it was, and for an issue not active nothing changes |
| `OutboxWorker.Worker.ProcessTask` | internal/notification/worker.go:101-131 | sends exactly once, or not at all exactly when the issue is gone, and then changes nothing; the row is SENT, FAILED or rescheduled as that send and the retries left say, and CANCELLED only if it already was or others deleted its issue during the call; every other row is left alone but for such deletions; a fallback row appears exactly when the last attempt of a WXPUSHER row bounces and the issue is still there; the measure drops strictly |
| `OutboxWorker.Worker.ProcessBatch` | internal/notification/worker.go:67-99 | terminates; sends plus remaining load never exceed the load at the start; every row that changed was tried with the result it shows, or cancelled by a deletion of others, or is a new fallback; when it ran to its end nothing is due, nothing is left claimed and every row due at the start was tried or is cancelled; if anything was due the load is lower, otherwise nothing changed |
| `OutboxWorker.Worker.GiveUp` | internal/notification/worker.go:112-124 | after the last attempt the row is FAILED, or CANCELLED by a deletion of others, and the fallback is created exactly when the channel and the issue allow; other rows are left alone |
| `OutboxWorker.Worker.Reschedule` | internal/notification/worker.go:122-129 | after another failed attempt the row is PENDING again, due after its backoff, unless it was or is cancelled by a deletion of others; other rows are left alone |
| `OutboxWorker.Worker.ProcessRound` | internal/notification/worker.go:78-98 | one claimed batch: empty exactly when nothing is due, and then nothing changes; otherwise every task of it is let go of, each row for its reason, and the load drops |
| `OutboxWorker.Worker.RunUntilSettled` | internal/notification/worker.go:45-64 | repeated batches bring every row to SENT or FAILED, after an attempt with that result, or to CANCELLED by a deletion of others, with no more sends than the load at the start |
| `TeamLocations.Table.AddTeamLocation` | internal/db/queries.sql.go:33-48 | leaves a current pair alone; otherwise appends exactly one open period from now on, or is refused by the exclusion constraint with nothing changed; coverage before now and of other pairs stays |
| `TeamLocations.Table.DeleteTeamLocation` | internal/db/queries.sql.go:778-788 | closes the current period at the present instant, or is refused with nothing changed |
| `TeamLocations.AssignStep` | internal/db/queries.sql.go:33-48 | assigning keeps periods apart and settled, and adds exactly its pair to what is covered from now on |
| `TeamLocations.UnassignStep` | internal/db/queries.sql.go:778-788 | unassigning keeps periods apart and removes exactly its pair from now on |
| `TeamLocations.HistoryRefinesSet` | internal/db/queries.sql.go:33-48 | for any calls under a clock that does not go back, at every instant the table covers exactly the plain set built from the accepted calls up to that instant |
| `TeamLocations.PeriodsAreApart` | internal/db/queries.sql.go:33-48 | no two periods of one pair share an instant |
| `TeamLocations.RefusedIff` | sql/schema.sql:84-93 | a call is refused exactly when it ends a period at the instant at which the period began |
| `TeamLocations.ExactIffNoneRefused` | internal/db/queries.sql.go:778-788 | the table is at every moment the history of the set built from all calls exactly when no call was refused |
| `TeamLocations.SameInstantIsRefused` | sql/schema.sql:84-93 | assign and unassign at one instant: refused, and the pair stays assigned |
| `ScoreRepricing.RepriceNeverWraps` | internal/scoring/service.go:164-172 | the int32 difference of two points valid for one rule is the true difference |
| `ScoreRepricing.RetroIsNoRule` | internal/scoring/service.go:164-172 | retro_adjust is never a valid rule |
| `ScoreRepricing.SortedIds` | internal/scoring/service.go:398-402 | the issue ids, each once, in increasing order |
| `ScoreRepricing.BuildBatch` | internal/scoring/service.go:403-414 | five aligned arrays that unnest to the given adjustments in order |
| `ScoreRepricing.GroupByIssue` | internal/scoring/service.go:384-397 | each issue keyed to exactly its adjustments, in log order |
| `ScoreRepricing.RetroactiveBatches` | internal/scoring/service.go:379-417 | aligned batches with strictly increasing issue ids, holding for every issue exactly its adjustments in log order |
| `ScoreLedger.BatchesPermuteAdjustments` | internal/scoring/service.go:379-417 | the grouped batches are a permutation of the per-log adjustments |
| `ScoreLedger.InsertedRows` | internal/db/queries.sql.go:2263-2290 | inserting loses no adjustment exactly when no two dated ones, new or already in the ledger, share issue and date |
| `ScoreLedger.AdjustmentsReprice` | internal/scoring/service.go:379-417 | the sum of any logs plus their adjustments is the sum with every listed rule at its new points plus earlier adjustments |
| `ScoreLedger.LaterDeletions` | internal/scoring/service.go:379-417 | adjustments computed before more issues were deleted are, for the issues left, those of the window with them deleted |
| `ScoreLedger.AppliedGroups` | internal/db/queries.sql.go:2263-2290 | whatever was deleted or restored meanwhile, what is applied are the adjustments of the logs read whose issues were deleted at neither time |
| `ScoreLedger.DueIsReadAndMissed` | internal/scoring/service.go:379-383 | the adjustments due when the transaction runs are those read and those missed, of logs added and of issues restored since |
| `ScoreLedger.NothingMissedIff` | internal/scoring/service.go:379-383 | nothing is missed exactly when no log that came into the window after the read, added or of a restored issue, has a listed rule at other points |
| `ScoreLedger.RepricingConserves` | internal/db/queries.sql.go:2263-2290 | with rows added and issues deleted or restored between read and transaction, each target's window sum misses its repriced sum plus earlier adjustments by exactly the adjustments dropped as clashing and those missed; none is dropped exactly when none clashes |
| `ScoreLedger.RestoredIssueKeepsOldPoints` | internal/db/issue_tx.go:107-124 | an issue deleted at the read and restored before the transaction keeps its penalty at the old points |
| `ScoreLedger.AddedLogKeepsOldPoints` | internal/scoring/service.go:379-383 | so does a penalty committed between the read and the transaction |
| `ScoreLedger.ClashLosesPoints` | sql/schema.sql:335 | two dated penalties of one issue and date: one adjustment is dropped and the sum is a point off |
| `ScoreLedger.Scoring.InsertScoreLogsForIssue` | internal/db/queries.sql.go:2263-2290 | appends the rows that do not conflict, none for a soft-deleted issue |
| `ScoreLedger.Scoring.UpdateScoringRulesAtomic` | internal/db/issue_tx.go:458-495 | rules, adjustments and audit row change together |
| `ScoreLedger.Scoring.UpdateRules` | internal/scoring/service.go:323-377 | refuses exactly the empty or invalid rule sets and a start date without a reason, changing nothing; otherwise sets the listed rules and reprices every target but for what was dropped and missed, while others add scores, change rules, and delete and restore issues between read and transaction |
| `IssueTable.IssueStore.InsertScoreLog` | internal/db/queries.sql.go:2232-2240 | adds the score unless its issue is missing or deleted |
| `IssueTable.IssueStore.CommitAtomic` | internal/db/issue_tx.go:145-265 | each transaction commits as a whole exactly when its WHERE clause holds and the version fits int32, and otherwise changes nothing |
| `IssueTable.IssueStore.CreateAtomic` | internal/db/issue_tx.go:292-359 | row and scores together, refused exactly for a known client UUID |
| `IssueService.Handle` | internal/issue/workflow.go:408-614 | a request decides on the issue as it read it and commits against the tables as they are by then |
| `IssueService.SyncIssue` | internal/issue/workflow.go:207-304 | an issue is created with exactly its penalty, or not at all |
| `IssueRuns.ConfiguredTally` | internal/issue/sideeffects.go:32-44 | a configured score is at most one score of the issue and rule asked for |
| `IssueRuns.CloseTally` | internal/issue/sideeffects.go:45-60 | closing yields at most one reporter reward |
| `IssueRuns.EffectTally` | internal/issue/workflow.go:492-614 | each decided transaction scores its own issue only, and no more than its kind allows |
| `IssueRuns.StepKeepsGood` | internal/issue/workflow.go:207-734 | every request, on any state of the issue it may have read before, keeps the invariant of tables, scores and committed writes |
| `IssueRuns.EveryIssue` | internal/issue/workflow.go:207-734 | in every run: version is 1 plus committed writes; PENDING_REVIEW and CLOSED have resolver, photo and time; rating is 1 to 5; cause CONFIRMED exactly with a cause team; one creation penalty, at most one of reporter reward and invalid penalty, reopen penalties at most reopenings at most resolutions |
| `IssueRuns.OneCommitPerVersion` | internal/db/queries.sql.go:4400-4409 | of all requests naming one version of an issue at most one commits |
| `IssueRuns.FinalStatus` | internal/db/queries.sql.go:2312-2322 | CLOSED and INVALID are never left |
| `IssueRuns.CheckedCloseIsReviewed` | internal/issue/workflow.go:492-529 | a close at the version its closer had seen never has the closer as resolver |
| `IssueRuns.SameUntilThen` | internal/issue/workflow.go:367-394 | up to the version after the one read, if it was read deleted, an issue is as it was read but for its restoration |
| `IssueStatus.StatusOfIssue` | internal/db/queries.sql.go:4321-4331 | in every run an issue is CLOSED exactly when a close committed, INVALID exactly when an invalidation did, else PENDING_REVIEW exactly when the last of its resolves and reopens is a resolve, and OPEN otherwise; deleted exactly when deletions outnumber restorations; resolver, photo and time are those of the last resolve, the rating that of the close, category and location those last patched |
| `IssueRequests.CommitsIff` | internal/issue/workflow.go:408-734 | each kind of request on an issue as it is commits exactly when status, deletion, version and the answers it carries allow it |
| `IssueRequests.ReopenedMayBeResolved` | internal/db/queries.sql.go:4321-4331 | after any committed reopen a permitted resolve at the stored version commits and leaves the issue under review |
| `IssueRequests.AssignedOwner` | internal/issue/workflow.go:811-872 | a committed responsibility request leaves exactly the owner it asks for, a confirmed cause always with its team and any other with none, and the rows of the trail that tell the change |
| `IssueScores.RequestScores` | internal/issue/sideeffects.go:45-60 | a committed close, reopen or invalidation brings exactly the scores of its rule, target and points, each once, by category, stars and what the rule table answers; nothing else brings any |
| `IssueScores.CreationScores` | internal/issue/workflow.go:207-304 | a creation is accepted exactly for valid data, a new UUID and a rule that is a penalty, and leaves an open issue with exactly that penalty of its location |
| `IssueScores.OtherScores` | internal/db/queries.sql.go:2232-2240 | the other writers add a score exactly for an issue that is there and not deleted |
| `IssueTrail.LifecycleIsAudited` | internal/db/issue_tx.go:145-265 | in every run the lifecycle rows of an issue are exactly those of its committed closes, reopens, invalidations, deletions and restorations, in order, each with the user and with status, version and deletion before and after as the history has them |
| `IssueReview.ReviewedIff` | internal/issue/workflow.go:492-529 | a close decided on the issue as it is now, deleted or not, is certain not to close the closer's own work, whatever happens in between, exactly when it names a version no later than the one read, or than the next if it was read deleted, or a version at which nothing commits |
| `IssueReview.CheckedCloseIsSafe` | internal/issue/workflow.go:492-529 | a close with such a version fails or closes another user's work |
| `IssueReview.UncheckedCloseIsSelfReview` | internal/db/queries.sql.go:197-208 | without a version, or with a later one, there is a run in which the closer, after a restoration if need be, resolves by force first and then closes their own work |
| `IssueAudit.ReplaySplit` | internal/issue/workflow.go:811-872 | replaying two pieces of the trail is replaying one after the other |
| `IssueAudit.CommitChains` | internal/issue/workflow.go:811-872 | a committed transaction extends the chain of assignment rows exactly when it is no assignment or read the owner it replaces |
| `IssueAudit.TrailTellsOwner` | internal/issue/workflow.go:811-872 | in every run whose responsibility requests name the version they read, the assignment rows of an issue replay from its first owner to the stored asset, team, assignee and cause |
| `IssueAudit.ChainedIff` | internal/issue/workflow.go:695-734 | a responsibility request on the issue as it is now, deleted or not, is certain to keep the chain, whatever checked requests come first, exactly when it names no later version than the one read, or than the next if it was read deleted, or one at which nothing commits |
| `IssueAudit.LateVersionBreaksChain` | internal/issue/workflow.go:811-872 | a later version commits over an owner that was never read, and the chain breaks |
| `RefreshTokens.StepKeepsGood` | internal/auth/handler.go:533-644 | logins, refreshes statement by statement, revocations and account changes keep: one unrevoked token per chain, one successor per token |
| `RefreshTokens.EveryRun` | internal/db/auth_refresh.go:20-55 | in every run no token has two successors, no login chain two unrevoked tokens, and of all refreshes with one token at most one is answered with a successor |
| `RefreshTokens.OnlyLoginRevives` | internal/db/queries.sql.go:4546-4550 | after all tokens of a user are revoked, refreshes under way included, only a login of that user makes an unrevoked one |
| `RefreshTokens.ReplayEndsSessions` | internal/auth/handler.go:620-644 | presenting a revoked token never yields a successor; once that refresh completes every token of the user is revoked until the next login, unless the look-up of the reused token or the revocation failed, and then the answer is never that of a detected reuse |
| `RefreshTokens.LostRefreshEndsSessions` | internal/auth/handler.go:597-603 | a refresh under way whose token is revoked by anybody before its own rotation never gets a successor, and once it has completed every session of the user begun before is over, unless one of its statements failed |
| `RefreshTokens.RaceEndsSuccessor` | internal/auth/handler.go:597-603 | of two refreshes with one token, when one gets a successor the other gets none, and once it has completed that successor is revoked, unless one of its statements failed |
| `RefreshTokens.UnnoticedReplay` | internal/auth/handler.go:620-630 | in every state, a replay whose look-up of the reused token fails is answered like an unknown token and revokes nothing |
| `RefreshTokens.RefreshAlone` | internal/auth/handler.go:533-644 | a refresh that nothing disturbs: issued exactly for a live token of an active user, everything revoked for a reused token or an inactive user, nothing changed otherwise |
| `RefreshTokens.Store.RotateRefreshToken` | internal/db/auth_refresh.go:20-55 | revocation and successor commit together or not at all |
| `RefreshTokens.Store.RevokeUserRefreshTokens` | internal/db/queries.sql.go:4546-4550 | token by token: afterwards the user has no unrevoked token, tokens revoked before keep their time, and nothing else changes |
| `RefreshTokens.Store.GetRefreshTokenByHash` | internal/db/queries.sql.go:1470-1476 | finds exactly an unrevoked, unexpired token |
| `RefreshTokens.Store.Refresh` | internal/auth/handler.go:533-618 | the handler, with others acting between any two statements, takes exactly the steps of the protocol, where each may fail |
| `RefreshTokens.Store.HandleRefreshReuse` | internal/auth/handler.go:620-630 | the reuse branch takes exactly the steps of the protocol; a failing look-up is answered like an unknown token |
| `RefreshTokens.Store.RevokeRefreshFamily` | internal/auth/handler.go:632-644 | revokes the family and writes the audit row in the steps of the protocol, or answers an error when one of them fails |
| `Migrations.LoadManifest` | internal/database/database.go:121-163 | loads unless a candidate is ill named or two share a version; the manifest is sorted and holds exactly the candidates |
| `Migrations.SortByVersion` | internal/database/database.go:161 | sorted by version, with the same assets |
| `Migrations.PrefixIff` | internal/database/database.go:205-235 | a ledger is that of the first k assets exactly when every row is known and none below an applied one is missing |
| `Migrations.ValidateLedger` | internal/database/database.go:205-235 | accepts exactly the ledgers of the first k assets, for some k |
| `Migrations.ValidateAllApplied` | internal/database/database.go:237-247 | accepts exactly the ledger of the whole manifest |
| `Migrations.SameLedgerSameAssets` | internal/database/database.go:205-235 | a ledger determines the sequence of assets that made it |
| `Migrations.StepKeepsGood` | internal/database/database.go:348-498 | starting, locking, preparing, applying and crashing of competing runners keep: the ledger is that of the executed bodies, which start the manifest of whoever applies |
| `Migrations.EveryRun` | internal/database/database.go:348-498 | in every run the committed bodies are in version order, each once, the ledger is exactly theirs, and they start any list that all manifests start |
| `Migrations.ExecutedGrows` | internal/database/database.go:467-498 | over any further run, what was executed stays, and whatever is executed later has a higher version, so nothing is executed twice |
| `Migrations.CompletedRun` | internal/database/database.go:348-378 | a run that completes leaves executed bodies and ledger equal to its manifest, so its check of all assets passes |
| `Migrations.RunnerAlone` | internal/database/database.go:348-378 | a runner that gets the lock and meets no failure finishes with exactly its manifest executed if what was executed starts it, and otherwise gives up, changes nothing and lets go of the lock |
| `Migrations.Database.PrepareMigrationLedger` | internal/database/database.go:446-465 | creates or accepts the ledger exactly when what was executed starts the manifest |
| `Migrations.Database.ApplyMigration` | internal/database/database.go:482-498 | body and row commit together or neither does |
| `Migrations.Database.ApplyPendingMigrations` | internal/database/database.go:467-480 | success leaves exactly the manifest executed; failure a longer or equal prefix of it |
| `Migrations.Database.RunMigrations` | internal/database/database.go:348-378 | success leaves exactly the manifest executed; failure leaves a prefix, or, for a foreign ledger, no change |
| `EventAudience.LocationScope` | internal/auth/scope.go:26-46 | the set of the codes that the query returned, in any order, or site-wide |
| `EventAudience.SameDecision` | internal/issue/projection.go:44-74 | with both site ids set, the recipients' query and the per-user check decide alike |
| `EventAudience.BatchIsExact` | internal/db/queries.sql.go:3925-3964 | with site ids set, the batch is exactly the subscribers whom the check lets through |
| `EventAudience.AgreeIff` | internal/db/queries.sql.go:3925-3964 | query and check agree for every directory exactly when both site ids are set or the check never asks for locations |
| `EventAudience.ZeroSiteDisagrees` | internal/db/queries.sql.go:2371-2389 | with a zero site id, a membership at the issue's location lets the check through and the query not |
| `EventHub.Hub.Subscribe` | internal/issue/hub.go:74-80 | a new channel with an empty buffer for the user |
| `EventHub.Hub.SubscriberIDs` | internal/issue/hub.go:99-113 | the users of the open channels, each once |
| `EventHub.Hub.Broadcast` | internal/issue/hub.go:117-133 | exactly the open channels of addressed users with room get the event; nothing else changes |
| `EventHub.StepKeepsGood` | internal/issue/service.go:277-294 | every subscription, collection of ids, resolution, publication, read and directory change, in any order, keeps each channel's events in order of publication, addressed to its user, and its buffer within 16 |
| `EventHub.ResolvesViewers` | internal/issue/service.go:286-293 | the audience is exactly the collected subscribers who may view the issue when it is resolved |
| `EventHub.BetweenReads` | internal/issue/hub.go:117-133 | over any run that takes nothing from an open channel, its buffer holds exactly the first sixteen of what it held and what was published for its user since, in that order: the rest is lost and nothing else |
| `EventHub.EveryStream` | internal/issue/service.go:277-294 | while site ids are set, every stream is an in-order subsequence of the published events, none twice, each of an issue its user could view when the audience was resolved or, without an audience, when it was written |
| `EventHub.StreamGetsAll` | internal/issue/handler.go:771-783 | over any run from its subscription on in which a channel stays open, what was written to its stream followed by what is buffered is exactly what was published for its user, in order, but for the events that met a full buffer and those without an audience whose user could not view them when taken |
| `EventHub.NothingIsLost` | internal/issue/handler.go:771-783 | so if no event meets a full buffer and all have an audience, nothing is lost |
| `EventHub.BroadcastAddresses` | internal/issue/service.go:277-294 | whoever is subscribed when a broadcast begins is addressed by its event exactly if they may view the issue when the audience is resolved, whatever happens in between |
| `EventHub.FailedBroadcastIsSilent` | internal/issue/service.go:286-293 | after a failed look-up nothing is ever published for that broadcast |
| `TagMerge.ReassignIff` | internal/db/queries.sql.go:4132-4136 | reassigning violates the primary key exactly when some issue has both tags |
| `TagMerge.MergeIff` | internal/db/issue_tx.go:364-421 | a merge goes through exactly for two different known tags of which the target is approved |
| `TagMerge.MergeMovesIssues` | internal/db/issue_tx.go:364-421 | the target gets the issues of both, the source none, every other tag keeps its own, and no pair is doubled |
| `TagMerge.Store.MergeTagIssuesDeduplicate` | internal/db/queries.sql.go:4116-4120 | drops exactly the source rows of issues that have the target |
| `TagMerge.Store.MergeTagAtomic` | internal/db/issue_tx.go:364-421 | the whole merge or no change |
| `TagMerge.MergedTagsLeadOut` | internal/db/queries.sql.go:4148-4156 | after any proposals, approvals, rejections, merges, taggings and untaggings, following merged tags never cycles and ends at a tag that is not merged |
| `TagMerge.StatusOfTag` | internal/db/issue_tx.go:364-421 | in every run the status of a tag is that of the last approval, rejection or merge of it, or PENDING, and a merged tag names the target of that merge |
| `TagMerge.StepKeepsNoneIff` | internal/db/issue_tx.go:28-81 | from a state in which no issue has a merged tag, exactly the tagging of an issue with a merged tag leads to one in which some has |
| `TagMerge.MergedTagsHaveNoIssuesIff` | internal/db/issue_tx.go:364-421 | in a run no issue ever has a merged tag exactly when no merged tag is ever put on one |
| `TagMerge.CodesStayAcyclicIff` | internal/db/queries.sql.go:4148-4156 | a merge leaves the stored codes acyclic exactly when they did not lead from its target back to its source |
| `TagMerge.CodesAloneMayCycle` | internal/db/queries.sql.go:77-84 | merge, approve, merge back: the stored codes of any two approved tags point at each other |
| `SlotLimiter.SlotsAreFeasible` | internal/ai/service.go:177-209 | no slot precedes its arrival, and consecutive slots are at least the interval apart |
| `SlotLimiter.SlotsAreEarliest` | internal/ai/service.go:177-209 | no schedule in lock order that keeps the intervals grants any call earlier |
| `SlotLimiter.SlotIsGreatestChain` | internal/ai/service.go:177-209 | with changing intervals, slot n is the greatest over j of arrival j plus the intervals after it |
| `SlotLimiter.ClosedForm` | internal/ai/service.go:177-209 | with one interval, slot n is the maximum over j of arrival j plus (n - j) intervals |
| `SlotLimiter.Limiter.WaitRateLimit` | internal/ai/service.go:177-209 | reserves the next slot of the schedule, or none when the interval is not positive |
| `SlotLimiter.Limiter.SetMinInterval` | internal/ai/service.go:170-174 | changes the interval and nothing else |
| `LoginLimiter.AddressRefusedIff` | internal/auth/limiter.go:82-105 | in every run a check refuses an address exactly when at least 5 failures have been recorded against it in the 60 s before |
| `LoginLimiter.AccountRefusedIff` | internal/auth/limiter.go:107-138 | in every run a check refuses an account exactly when a failure of it was answered as locking it less than 15 minutes before, and it has not succeeded since |
| `LoginLimiter.TenthFailureLocksIff` | internal/auth/limiter.go:142-168 | a failure recorded at the instant of its check locks exactly when it is the tenth in 15 minutes since the last success, lock or first check after a lock |
| `LoginLimiter.LocksEarlyIff` | internal/auth/limiter.go:142-168 | in any run a failure locks exactly when it is the tenth of those since the last reset that were young at the last passed check or came later; so a due lock is never missed, and an early one happens exactly when nine were young then and fewer still are |
| `LoginLimiter.LateFailureLocksEarly` | internal/auth/limiter.go:142-168 | a run with nine failures, a check just before they are old and a late tenth: locked with no other failure in the window |
| `LoginLimiter.Limiter.CheckAllowed` | internal/auth/limiter.go:66-80 | prunes both lists and answers as specified |
| `LoginLimiter.Limiter.CheckAccountLock` | internal/auth/limiter.go:107-138 | a running lock refuses, one that ran out resets, otherwise the list is pruned |
| `LoginLimiter.Limiter.RecordFailure` | internal/auth/limiter.go:142-168 | counts the failure against address and account and locks at ten |
| `LoginLimiter.Limiter.RecordSuccess` | internal/auth/limiter.go:182-189 | forgets the account |
| `TranslationLookup.GetTranslationCacheBatch` | internal/db/queries.sql.go:1924-1928 | the cached rows of the hashes, each once |
| `TranslationLookup.LookUp` | internal/issue/projection.go:136-142 | the cached non-empty text of a description that is not blank |
| `TranslationLookup.LoadTranslationsForRows` | internal/issue/projection.go:348-383 | gives every row exactly what its own look-up gives, rows with one description or none included |
| `ColumnNames.ColumnName` | internal/report/handler.go:187-194 | terminates on every index; the decoder recovers the index, and a negative one has the empty name |
| `ColumnNames.DecodeIsInjective` | internal/report/handler.go:187-194 | an index has only one name |
| `ColumnNames.OrderIff` | internal/report/handler.go:187-194 | shorter first, then alphabetical, is exactly the order of the indexes |

## Left out

- HTTP handlers, decoding, cookies, translation of messages and the web client: plumbing around the modelled calls.
- Roles and permissions of the lifecycle: one answer carried by each request.
- Look-ups of locations, assets, teams and users in issue requests: answers carried by the request; the acting user is taken as read at that moment.
- Photo files, descriptions, reject and delete reasons, closing times, tags of an issue and proposed tags in creation and patch: they do not touch status, version, scores or responsibility.
- SQL isolation anomalies: each statement or transaction is atomic; concurrent merges without row locks are not modelled.
- last_error, sent_at and created_at of outbox rows, and the decrypted channel configuration: no decision depends on them after the claim.
- The order of tasks within a claimed batch: any order is allowed, which contains the one used.
- The floating-point power behind the backoff: taken as the integer power, which it equals for delays that fit int32.
- Sending, hashing and random tokens: the outcome of a send is arbitrary, a checksum stands for its body, and a new token hash is given by the event.
- A failure after a rotation has committed, in reading capabilities or setting cookies: the error answer then hides a successor that exists.
- Retry-After seconds of the login limiter: rounding of durations only.
- Waiting for a reserved AI slot and its cancellation: a cancelled call keeps its slot, as in the code.
- Timeouts of the migration session: a timeout is a crash or a failing migration.
- Keep-alive comments and connection errors of event streams: a stream may end at any time.
- Store failures of the translation look-ups: both look-ups then give nothing.
- Repeated repricing of one window: earlier adjustments appear as a term of the sum instead.
- Overdue scan: its scores enter the ledger as those of another writer.
- OutboxFallback.LeaseTheorem: one holder and the budget are stated for rows within their leases, and one fallback also for recorded failures, because each fails otherwise (OutboxLateness.SingleHolderIff, OutboxLateness.BudgetIff, OutboxOverrun.LostFailureIff).
- EventHub.EveryStream: assumes that site ids are set, because with a zero one an audience may differ from the viewers (EventAudience.AgreeIff).
- LoginLimiter.TenthFailureLocksIff: assumes failures recorded at the instant of their check, because later ones may lock early (LoginLimiter.LocksEarlyIff covers every run).
- OutboxWorker.Worker.ProcessBatch: stated for one worker without store failures and without new rows from outside, because with those the loop need not end; several workers and failures are in OutboxProtocol.
