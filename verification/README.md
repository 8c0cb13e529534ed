# Verification of the notification service

A Dafny model of the parts of the notification service whose correctness rests on several pieces of
code acting together, with proofs about every run. `dafny verify dfyconfig.toml` checks the whole
project.

## What is modelled

**The durable outbox.** `OutboxRepository` has the `event_outbox` table and each SQL statement run on
it, as a function on tables and as a method of the class `OutboxTable` that changes the table in place.
`OutboxProtocol` is the whole deployment as a transition system: any number of workers (distinct ids,
one shared configuration), operators, users, a non-decreasing clock shared by workers and database,
and the history of what was done. A worker's step is what it does between two awaits. A statement may
take effect and be acknowledged, take effect and be reported as an error, or be refused; a worker may
crash, or be slow for as long as it likes; leases run out and rows are taken over; dead letters are
replayed. Over all runs of that system:

- `OutboxFencing`: the attempts in a worker's hand are those of the row while it holds the row, hence
  every retry and every dead letter was decided on the row's own count.
- `OutboxLedger`: how attempts add up, how much time they take, which columns a status allows, which
  rows stay.
- `OutboxDelivery`: a published row was dispatched and had the effects its recipient's preference, unchanged
  since the event was enqueued, asks for; an event never has two notifications.
- `OutboxRecipients`: the same told by what users set and when, down to the default for a user who set
  nothing; and whom a notification is addressed to.
- `OutboxLocks`: claim transactions at the level of row locks (snapshot, SKIP LOCKED, re-check, update,
  commit, with single-row statements in between) refine the atomic claims of the protocol.
- `OutboxWorker`: `processBatch` as a real loop in a class, run against a cluster in which everybody
  else may act at every await. What it does is a run of the protocol, so all of the above holds of it.
- `Retry`: the bounded retry loop on its own; `Worker.CreateWithRetries` is its use inside a dispatch and
  stops where `Retry.StopsAt` says.

**Sessions and refresh tokens.** `Sessions` has the two tables, the statements and the transactions;
`SessionChain` what every committed state keeps; `SessionRuns` the facts over whole runs of logins,
refreshes, logouts, activity checks and cleanups that start from any set of session-less tokens;
`RefreshLocks` the refresh split at its row locks, refined to atomic refreshes; `AuthService` the
repository and the service as code that changes the tables in place inside transactions that roll back.

**The notification feed.** `Pagination` has the `limit + 1` page query and a client that follows
cursors while others insert, read and delete; `Cursor` the codec (JSON in unpadded base64url, section 5
of RFC 4648); `NotificationRepository` the table in place, with cursors as text.

**In-memory structures.** `Limiter` (sliding windows with pruning and eviction), `Reservations`
(connections per IP across an await), `LabelKeys` and `Metrics` (label-keyed histograms), each against
a plain history.

## What the code does that its documentation does not say

- `README.md:468` calls `OUTBOX_MAX_ATTEMPTS` the attempts before an event is dead-lettered. The limit
  is looked at only when a dispatch fails; a row whose workers crash is claimed again without limit
  (`OutboxLedger.TakeoversAreNotCapped`). A claim passes the maximum exactly when the row it takes is
  still `processing` and has used the maximum up (`OutboxLedger.ClaimPassesMaximumIff`), and at any moment
  a row is beyond it exactly if that is what its latest claim did (`OutboxLedger.BeyondMaximumIff`). A
  pending row is below the maximum, a dead letter is not, and retries alone never reach it
  (`OutboxLedger.AttemptsAddUp`).
- The retry time is computed from `Date.now()`, which drops the microseconds that `NOW()` keeps. A worker
  that fails within the millisecond it claimed in dates its failure before the claim, and the next claim
  can then come up to 999 microseconds before the backoff has passed (`OutboxLedger.DelayCanFallShort` is
  such a run). The backoff is full exactly when the millisecond of the failure does not begin before the
  claim (`OutboxLedger.DelayIsFullIff`); the least of backoff and lease is kept exactly when that is so or
  the backoff is longer than the lease (`OutboxLedger.RetryKeepsGapIff`). A row whose retries since its
  insert or last replay met that condition loses nothing, whatever other rows did
  (`OutboxLedger.AttemptsTakeTime` with `slack` 0), and no row ever loses a millisecond a retry
  (`OutboxLedger.AlwaysWithinOf`).

## Assumptions

- Worker ids are distinct, `maxAttempts` is at least 1, and all workers share one configuration.
- Workers and database read one clock, which does not go back. A single-statement update reads it when
  it takes effect; a transaction reads it once, when it begins.
- A statement of a live worker has taken effect, if it ever does, by the time its caller hears of it.
- Session ids, token ids and token hashes are new when drawn; token ids come from a sequence; equal
  hashes are equal tokens.
- PostgreSQL does what the queries rely on: row locks, re-check after a wait, unique keys, cascade from a
  session to its tokens.
- Preferences, mail and Redis are steps that succeed or fail at will.

## Model

| member | source | states |
|---|---|---|
| OutboxRepository.OutboxTable.InsertEvent | src/events/outbox/outbox.repository.js:8-18 | an event gets a pending row with no attempts unless it has a row already, and the answer says which |
| OutboxRepository.OutboxTable.ReplayDeadLetterEvent | src/events/outbox/outbox.repository.js:44-54 | only a dead letter is reset, to a pending row without attempts, lock, error or dates, and the answer says whether it was one |
| OutboxRepository.OutboxTable.ClaimEvents | src/events/outbox/outbox.repository.js:56-86 | every row taken was claimable and not locked elsewhere, every claimable row left behind comes later by (occurred_at, event_id) than each row taken, and only once the limit is reached; the rows taken get the lock, the worker and one more attempt, no other row changes, one copy each is returned |
| OutboxRepository.Candidates | src/events/outbox/outbox.repository.js:61-69 | the loop over the pool yields its first `limit` rows in order: every row left out of the scan occurred later than those in it, or at the same time with a greater id |
| OutboxRepository.ClaimInColumns | src/events/outbox/outbox.repository.js:56-86 | whatever took the first rows of a pool did so in the columns: status, times and order of the rows taken and of those left |
| OutboxRepository.FirstIsUnique | src/events/outbox/outbox.repository.js:66-68 | the order and the limit leave one possible choice of rows |
| OutboxRepository.OutboxTable.MarkPublished | src/events/outbox/outbox.repository.js:88-96 | publishes a row held by this worker and no other, and says whether it did |
| OutboxRepository.OutboxTable.ReleaseForRetry | src/events/outbox/outbox.repository.js:98-107 | makes a row held by this worker pending again from the given time, and says whether it did |
| OutboxRepository.OutboxTable.MoveToDeadLetter | src/events/outbox/outbox.repository.js:109-118 | dead-letters a row held by this worker, and says whether it did |
| OutboxRepository.OutboxTable.GetOutboxStats | src/events/outbox/outbox.repository.js:20-30 | the counts of pending, processing, published and dead-letter rows in that order, and they add up to the table |
| OutboxRepository.CountsCover | src/events/outbox/outbox.repository.js:20-30 | no row is counted twice and none is missed |
| OutboxFencing.FencingStep | src/events/outbox/outbox.worker.js:66-80 | every step of anybody keeps: a held row has the attempts of the holder's copy, pending rows are below the maximum, dead letters are not |
| OutboxFencing.AlwaysFenced | src/events/outbox/outbox.worker.js:33-93 | that holds in every reachable state, with crashes, slow workers and takeovers |
| OutboxLedger.AlwaysLedger | src/events/outbox/outbox.repository.js:56-118 | in every reachable state each row's attempts and columns agree with its history, and no lock or failure is dated after the clock |
| OutboxLedger.AlwaysPaced | src/events/outbox/outbox.repository.js:64-72 | in every reachable state the claims of a row are as far apart as its retries since its insert or last replay were dated, and a waiting row is not claimable sooner |
| OutboxLedger.AlwaysWithinOf | src/events/outbox/outbox.worker.js:77-78 | no retry is dated a millisecond or more before the claim it follows |
| OutboxLedger.AttemptsAddUp | src/events/outbox/outbox.repository.js:44-118 | since insert or last replay attempts are retries plus takeovers plus one unless pending; retries stay below the maximum; each date, the lock and the error are set exactly for the statuses they belong to |
| OutboxLedger.AttemptsTakeTime | src/events/outbox/outbox.worker.js:77-78 | the n-th claim came no sooner after the first than the sum of min(backoff, lease) over the attempts between, in full when every retry of this row since its insert or last replay met the condition of RetryKeepsGapIff, else less the given slack a retry |
| OutboxLedger.BackoffDoubles | src/events/outbox/outbox.worker.js:77 | the backoff is the base after the first attempt, twice the last one after each further, and never above the maximum |
| OutboxLedger.AttemptsTakeGeometricTime | src/events/outbox/outbox.worker.js:77-78 | while the backoff stays below maximum and lease, the n-th claim comes at least base * (2^(n-1) - 1) after the first, less the slack |
| OutboxLedger.RetryKeepsGapIff | src/events/outbox/outbox.worker.js:77-78 | in any run a retry leaves min(backoff, lease) between its claim and the next if and only if the millisecond of the failure does not begin before the claim or the backoff is longer than the lease |
| OutboxLedger.DelayIsFullIff | src/events/outbox/outbox.worker.js:77-78 | a released row waits its full backoff from its last claim if and only if the millisecond of the failure does not begin before the claim |
| OutboxLedger.DelayIsExactOnWholeMilliseconds | src/events/outbox/outbox.worker.js:77-78 | from failure to release the delay is the backoff less what the clock reading drops |
| OutboxLedger.DelayCanFallShort | src/events/outbox/outbox.worker.js:77-78 | a run in which two claims are 999 microseconds closer than the backoff between them |
| OutboxLedger.WaitingRowsBecomeClaimable | src/events/outbox/outbox.repository.js:64-65 | a row has a time from which it is claimable exactly when it is pending or processing |
| OutboxLedger.RowsStay | src/events/outbox/outbox.repository.js:8-118 | no step removes a row, changes its event, or changes a published row |
| OutboxLedger.PublishedForGood | src/events/outbox/outbox.repository.js:88-118 | the same between any two moments of a run |
| OutboxLedger.ComesInPending | src/events/outbox/outbox.repository.js:8-54 | the row an enqueue or a replay leaves is pending, claimable now, without attempts, lock, error or dates, and no other row changes |
| OutboxLedger.PublishesNow | src/events/outbox/outbox.repository.js:88-96 | a publish that takes effect on a row its worker holds sets status and date, clears the lock and keeps the rest; otherwise no row changes |
| OutboxLedger.SettlesByAttempts | src/events/outbox/outbox.worker.js:70-80 | settling makes a held row whose copy has the maximum a dead letter dated now, any other pending from the backoff after the failure; otherwise no row changes |
| OutboxLedger.ClaimPassesMaximumIff | src/events/outbox/outbox.repository.js:64-73 | in any run a claim brings the attempts of a row beyond the maximum if and only if the row was processing and had used the maximum up |
| OutboxLedger.BeyondMaximumIff | src/events/outbox/outbox.repository.js:44-73 | at any moment of any run a row is beyond the maximum if and only if its latest claim since insert or replay took over a row that had used it up |
| OutboxLedger.TakeoversAreNotCapped | src/events/outbox/outbox.repository.js:64-73 | for any number there is a run of claims and crashes that brings the attempts of a row to it |
| OutboxDelivery.AlwaysConserved | src/modules/notifications/notification.repository.js:94-113 | at every moment the notifications inserted for an event are those deleted plus the one that is there |
| OutboxDelivery.AlwaysEvidence | src/events/consumers/notification.consumer.js:59-98 | every publish follows a completed dispatch, every completed dispatch the insert, emit and mail it reports |
| OutboxDelivery.AlwaysObedient | src/events/consumers/notification.consumer.js:68-90 | while a recipient's preference has stayed since the event was enqueued, every completed dispatch of the event did what it asks, and no notification, emit or mail it does not ask for ever happened |
| OutboxDelivery.PublishedMeansDelivered | src/events/outbox/outbox.worker.js:66-68 | a published event had a completed dispatch; with in-app on from enqueue to publish an insert and an emit, with e-mail on an accepted mail, and exactly one insert if nothing was deleted, whatever the recipient changed afterwards |
| OutboxDelivery.DisabledMeansNoNotification | src/events/consumers/notification.consumer.js:76-78 | with in-app off since the event was enqueued no notification of it is ever inserted or emitted |
| OutboxDelivery.DisabledMeansNoMail | src/events/consumers/notification.consumer.js:80-90 | with e-mail off since the event was enqueued no mail of it is ever sent |
| OutboxRecipients.PublishedAsSet | src/events/consumers/notification.consumer.js:68-90 | with the setting of the enqueue, or none, unchanged until the publish, a published event has an insert and an emit if in-app was set or nothing was, and a mail if e-mail was set; the setting is the latest made by the user for this kind of event |
| OutboxRecipients.NothingUnset | src/events/consumers/notification.consumer.js:73-90 | with the setting of the enqueue, or none, unchanged since, no mail is sent unless e-mail was set, and with in-app set off nothing is inserted or emitted |
| OutboxRecipients.UnsetMeansInAppOnly | src/events/consumers/notification.consumer.js:73-74 | while a user has no row and has set nothing for a kind of event, such events have an insert and an emit once published, and never a mail |
| OutboxRecipients.AlwaysAddressed | src/events/handlers/postLiked.handler.js:4 | every notification is addressed to the target of its event |
| OutboxDelivery.AtMostOneNotification | src/modules/notifications/notification.repository.js:94-113 | an event never has two notifications, however often it is dispatched |
| OutboxLocks.CommitEnabled | src/events/outbox/outbox.repository.js:59-79 | when a claim commits, the rows it locked are still claimable, so the commit is an atomic claim |
| OutboxLocks.MoveSound | src/events/outbox/outbox.repository.js:59-79 | every move of any transaction keeps: scans in order, locks disjoint, locked rows untouched |
| OutboxLocks.LocksRefineClaims | src/events/outbox/outbox.repository.js:56-86 | whatever locking transactions reach, a run with atomic claims reaches |
| OutboxLocks.SkippedForAReason | src/events/outbox/outbox.repository.js:64-67 | a scan skips a row only if, since its snapshot, another claim or statement had it locked or it did not qualify, as recorded |
| OutboxLocks.SnapshotsArePools | src/events/outbox/outbox.repository.js:62-66 | a snapshot is every row claimable when it was taken, in order |
| OutboxLocks.CommitTakesTheFirst | src/events/outbox/outbox.repository.js:61-69 | a commit takes exactly the first `limit` of the rows claimable at its snapshot, but for those that were locked by others or no longer qualified when the scan skipped them: a row left behind occurred later than every row taken, or at the same time with a greater id |
| OutboxLocks.OpenClaimsAreDisjoint | src/events/outbox/outbox.repository.js:67 | claims open at the same time hold disjoint rows, all still claimable |
| OutboxLocks.OneTimePerTransaction | src/events/outbox/outbox.repository.js:59-65 | the time a claim compares with and writes is the clock at its begin, however long it takes |
| OutboxLocks.LoneClaimCommits | src/events/outbox/outbox.repository.js:56-86 | with nobody in the way the locks let a claim through, and it takes the first `limit` claimable rows |
| OutboxWorker.Cluster.Claim | src/events/outbox/outbox.worker.js:48-49 | a claim run among others' steps returns at most a batch of copies, which the worker then holds, or throws |
| OutboxWorker.Cluster.MarkPublished | src/events/outbox/outbox.worker.js:68 | may be called only after the dispatch of this copy completed; success closes the copy, an error fails it |
| OutboxWorker.Cluster.MoveToDeadLetter | src/events/outbox/outbox.worker.js:74 | may be called only for a failed copy at the maximum; closes it or drops the batch |
| OutboxWorker.Cluster.ReleaseForRetry | src/events/outbox/outbox.worker.js:78 | may be called only for a failed copy below the maximum and with the backoff time of that copy; closes it or drops the batch |
| OutboxWorker.Worker.CreateNotification | src/modules/notifications/notification.repository.js:94-113 | one try of insert and, after a conflict, select; success leads on to the emit, an error that may be retried to the next try, any other to failure |
| OutboxWorker.Worker.CreateWithRetries | src/events/consumers/notification.consumer.js:33-37 | tries as the retry loop does: stops at the first try that succeeds or may not be retried, else at the third |
| OutboxWorker.Worker.CreateInAppNotification | src/events/consumers/notification.consumer.js:31-57 | at most three tries, then the emit; succeeds only with both done |
| OutboxWorker.Worker.DispatchNotificationEvent | src/events/consumers/notification.consumer.js:59-98 | returns with the dispatch complete, or failed at the moment of the error |
| OutboxWorker.Worker.SettleFailure | src/events/outbox/outbox.worker.js:70-80 | a failed copy at the maximum is dead-lettered, one below it released at its backoff time; closes it, or gives the batch up |
| OutboxWorker.Worker.ProcessCopy | src/events/outbox/outbox.worker.js:50-89 | closes exactly this copy by publish, retry or dead letter and goes on to the next, or gives the batch up |
| OutboxWorker.Worker.ProcessAll | src/events/outbox/outbox.worker.js:50-89 | closes the copies in their order until settling one throws, also when the worker is stopped meanwhile |
| OutboxWorker.Worker.ProcessBatch | src/events/outbox/outbox.worker.js:33-93 | does nothing when stopped or running; otherwise claims at most one batch, the one in the outcome, and then closes its copies, those and no others, in order until settling one throws, whoever stops or starts the worker meanwhile; is no longer running afterwards; statistics at most every 15 s |
| OutboxWorker.Worker.Start | src/events/outbox/outbox.worker.js:96-104 | the worker is started and polls at once, with the deeds of that poll, unless a batch is in flight |
| OutboxWorker.Worker.Stop | src/events/outbox/outbox.worker.js:109-111 | the worker is stopped and not started |
| Retry.RetryWithBackoff | src/common/utils/retry.js:1-25 | stops at the first try that succeeds or may not be retried, else at the last, with that outcome, having waited base * (2^(calls-1) - 1) |
| AuthService.AuthTables.CreateSession | src/modules/auth/refreshToken.repository.js:3-11 | adds an unrevoked session with this expiry and changes nothing else |
| AuthService.AuthTables.StoreRefreshToken | src/modules/auth/refreshToken.repository.js:13-20 | adds an unrevoked token of this session under the next id |
| AuthService.AuthTables.FindRefreshTokenForUpdate | src/modules/auth/refreshToken.repository.js:22-29 | finds the one row with this hash, if there is one |
| AuthService.AuthTables.LockActiveSession | src/modules/auth/refreshToken.repository.js:31-39 | answers whether the session is unrevoked and unexpired, whoever owns it |
| AuthService.AuthTables.RevokeSessionForReuse | src/modules/auth/refreshToken.repository.js:41-47 | revokes the session unless there is none, keeping an earlier date |
| AuthService.AuthTables.AttachRefreshTokenToSession | src/modules/auth/refreshToken.repository.js:49-54 | gives a session-less token this session and leaves any other alone |
| AuthService.AuthTables.RotateRefreshToken | src/modules/auth/refreshToken.repository.js:56-67 | the spent token points to its successor and keeps its session; the session's expiry moves |
| AuthService.AuthTables.RevokeSession | src/modules/auth/refreshToken.repository.js:69-76 | revokes a session only for its owner, and says whether it did |
| AuthService.AuthTables.RevokeAllSessions | src/modules/auth/refreshToken.repository.js:78-86 | revokes exactly the user's unrevoked sessions and returns them |
| AuthService.AuthTables.IsSessionActive | src/modules/auth/refreshToken.repository.js:99-117 | true exactly if the session is there, belongs to this user, is unrevoked and expires later; its last use is then moved to now exactly if it was more than five minutes back, and nothing else changes |
| AuthService.AuthTables.DeleteStaleSessions | src/modules/auth/refreshToken.repository.js:120-124 | removes exactly the sessions 30 days past expiry or revocation, with their tokens, and counts them |
| AuthService.AuthTables.DeleteLooseTokens | src/modules/auth/refreshToken.repository.js:125-130 | removes exactly the session-less tokens 30 days past expiry or revocation, and counts them |
| AuthService.AuthTables.CleanupExpiredSessions | src/modules/auth/refreshToken.repository.js:119-132 | both sweeps in order, each at its own time; the count leaves out tokens that went with their session |
| AuthService.AuthTables.Login | src/modules/auth/auth.service.js:39-45 | session and token both when the transaction committed, acknowledged or not, else neither |
| AuthService.AuthTables.Rotate | src/modules/auth/auth.service.js:92-132 | the callback's statements, in order, amount to the refresh decision and its writes |
| AuthService.AuthTables.RefreshAccessToken | src/modules/auth/auth.service.js:90-142 | all or nothing, by whether the transaction committed, acknowledged or not; tokens are returned only for a refresh that went through; a replay never gets tokens and its revocation stays |
| SessionChain.LoginChained | src/modules/auth/auth.service.js:39-45 | a login keeps the chains whole |
| SessionChain.RotationChained | src/modules/auth/auth.service.js:103-126 | a rotation keeps the chains whole, through the adoption of an old token as well |
| SessionChain.RefreshChained | src/modules/auth/auth.service.js:92-132 | any refresh, whatever it answers, keeps the chains whole |
| SessionChain.SweepsChained | src/modules/auth/refreshToken.repository.js:119-132 | cleanup keeps the chains whole, leaves no dangling `replaced_by_id`, and keeps every active session with all its tokens |
| SessionChain.ChainReachesLive | src/db/migrations/006_add_managed_sessions.sql:19-21 | following `replaced_by_id` from any token of a session ends at its one unrevoked token, of the same user |
| SessionChain.ActiveIffRefreshable | src/modules/auth/auth.service.js:93-110 | the one unrevoked token of a session refreshes exactly if the session is active for its owner at the expiry check; any other of its tokens is a replay |
| SessionChain.LooseTokenIsAdopted | src/modules/auth/auth.service.js:109-126 | an unrevoked, unexpired token without a session gets a new active session of its user and one live successor; otherwise nothing changes |
| SessionChain.RefusedRefresh | src/modules/auth/auth.service.js:94-108 | a refresh is invalid exactly if no token has the hash, or it was revoked without a successor, or it has expired or its session cannot be locked, and then nothing changes |
| SessionChain.ReplayedRefresh | src/modules/auth/auth.service.js:96-100 | a superseded token answers reuse and only dates the revocation of its session, an earlier date being kept |
| SessionChain.GrantedRefresh | src/modules/auth/auth.service.js:103-131 | any other refresh spends the token, points it to one new token of the same user that lasts seven days, and moves the session to that expiry, creating it for a token without one |
| SessionRuns.AlwaysKept | src/modules/auth/auth.service.js:39-155 | in every committed state chains are whole, ids and hashes are new, and past issues, refreshes and revocations still show |
| SessionRuns.ChainsAreWhole | src/modules/auth/refreshToken.repository.js:49-67 | at any moment of any run, from any token of a session the chain leads to its one unrevoked token |
| SessionRuns.IssuedTokensRemain | src/modules/auth/refreshToken.repository.js:119-132 | while a session has its row, its tokens are exactly those ever issued for it |
| SessionRuns.ReplayRevokes | src/modules/auth/auth.service.js:96-102 | presenting any superseded token of a session commits the session's revocation and changes no token |
| SessionRuns.RevokedForGood | src/modules/auth/refreshToken.repository.js:31-47 | after a revocation the session is never active and none of its tokens is refreshed again, across cleanup too |
| SessionRuns.LogoutIsForGood | src/modules/auth/auth.service.js:144-155 | a session logged out is not active at any later moment of the run |
| SessionRuns.LogoutRevokes | src/modules/auth/refreshToken.repository.js:69-86 | a logout dates the revocation of exactly these sessions, an earlier date being kept |
| SessionRuns.TokensAreSpentOnce | src/modules/auth/auth.service.js:96-101 | over a whole run no token is exchanged twice |
| SessionRuns.ActiveMeansRefreshable | src/modules/auth/auth.service.js:103-126 | at any moment of any run, active for its owner at the expiry check and refreshable by its one live token are the same |
| SessionRuns.ActiveForItsOwner | src/modules/auth/refreshToken.repository.js:99-117 | at any moment of any run a session is active only for the user whose login or adopted token created it |
| SessionRuns.LoginIssues | src/modules/auth/auth.service.js:39-45 | a login adds one session and one unrevoked token of it, both for seven days |
| SessionRuns.CheckTouches | src/modules/auth/refreshToken.repository.js:99-117 | an activity check changes at most the last use, of an active session of this user unused for five minutes |
| SessionRuns.CleanupDeletes | src/modules/auth/refreshToken.repository.js:119-132 | the sweeps leave exactly the sessions that neither expired nor were revoked over thirty days ago, the tokens of these sessions, and the session-less tokens of which the same holds |
| RefreshLocks.CommitIsRefresh | src/modules/auth/auth.service.js:92-132 | a commit is an atomic refresh, decided on the rows as they are when it commits |
| RefreshLocks.MoveSound | src/modules/auth/auth.service.js:92-132 | every move of any transaction keeps: what an open refresh has seen of the rows it locked is still so |
| RefreshLocks.LocksRefineRefreshes | src/config/transaction.js:3-17 | whatever interleaved transactions commit, a run of atomic refreshes commits |
| RefreshLocks.OneWinner | src/modules/auth/refreshToken.repository.js:22-29 | of any number of concurrent refreshes of a token at most one returns ok |
| RefreshLocks.LoserRevokes | src/modules/auth/auth.service.js:96-99 | the commit of a refresh whose token was spent meanwhile revokes the session |
| RefreshLocks.BlockedCompetitorRereads | src/modules/auth/refreshToken.repository.js:22-29 | a refresh that waited for the row of a spent token finds it rotated |
| RefreshLocks.RevokedBlocksRefresh | src/modules/auth/refreshToken.repository.js:31-39 | a refresh that asks for the session after its revocation was committed ends without a write |
| RefreshLocks.TokenDecides | src/modules/auth/auth.service.js:93-103 | a refresh goes on after its token's row is locked exactly if the row is superseded, or unrevoked and unexpired by the clock |
| RefreshLocks.SessionDecides | src/modules/auth/auth.service.js:96-115 | it goes on after the session's row is locked exactly if the token is superseded, has no session, or the session is unrevoked and unexpired at the transaction's time |
| RefreshLocks.OneTimePerTransaction | src/config/transaction.js:3-17 | the time a refresh compares sessions with and writes is the clock at its begin |
| RefreshLocks.LoneRefreshCommits | src/modules/auth/auth.service.js:90-132 | with nobody in the way the locks let a refresh through that is not invalid, and it is the atomic one |
| Pagination.Query | src/modules/notifications/notification.repository.js:19-28 | the first n of the recipient's rows below the cursor, newest first |
| Pagination.GetPage | src/modules/notifications/notification.repository.js:17-40 | the items are own rows below the cursor, newest first; a row left out comes after all of them and makes hasMore true; the last row is the next cursor exactly then |
| Pagination.PageInColumns | src/modules/notifications/notification.repository.js:23-26 | the same by year, month, day, time and id: nothing of another recipient, nothing newer than the cursor, nothing skipped |
| Pagination.ShownIsStable | src/modules/notifications/notification.repository.js:17-40 | what was shown of a row stays its position while the row is there |
| Pagination.NoRowTwice | src/modules/notifications/notification.repository.js:24-25 | across all pages rows strictly descend in time and id and none is shown twice, whatever is inserted, read or deleted meanwhile |
| Pagination.ShownAreOwn | src/modules/notifications/notification.repository.js:23 | every row shown on any page of a walk and still in the table belongs to the recipient |
| Pagination.EveryLastingRowOnce | src/modules/notifications/notification.repository.js:30-39 | a row present throughout has been shown exactly once when hasMore turns false |
| Pagination.PagesCoverTheFeed | src/modules/notifications/notification.repository.js:30-39 | on a still table k pages are the first k * limit rows, and there is a next cursor exactly while rows remain |
| Pagination.WalkEndsWithTheFeed | src/modules/notifications/notification.repository.js:30-39 | on a still table the walk ends after max(1, ceil(n / limit)) pages and has shown exactly the ids whose recipient this is, newest first |
| Cursor.BytesRoundTrip | src/modules/notifications/notification.cursor.js:10-18 | decoding undoes unpadded base64url encoding for byte strings of every length |
| Cursor.TimestampRoundTrip | src/modules/notifications/notification.repository.js:21-24 | a microsecond timestamp of a four-digit year passes the cursor schema and is read back as itself |
| Cursor.JsonRoundTrip | src/modules/notifications/notification.cursor.js:10-18 | the JSON text of a position is parsed back to it |
| Cursor.CursorRoundTrip | src/modules/notifications/notification.cursor.js:9-25 | a cursor decodes to the position it was made of, and is 1 to 512 characters long |
| Cursor.CursorsAreDistinct | src/modules/notifications/notification.cursor.js:9-14 | different positions have different cursors |
| Cursor.SymbolsAreTheAlphabet | src/modules/notifications/notification.cursor.js:10-13 | the 64 symbols are those of table 2 in section 5 of RFC 4648 |
| Cursor.DatetimeInColumns | src/modules/notifications/notification.cursor.js:5 | a text the schema takes is a date that exists, a time of day and an offset, each in its place |
| Cursor.DatetimeSuffices | src/modules/notifications/notification.cursor.js:5 | every such date and time, with or without seconds, with `Z` or an offset, is taken |
| Cursor.AcceptedCursor | src/modules/notifications/notification.cursor.js:16-22 | a cursor that decodes holds a positive safe integer and a text the schema takes |
| NotificationRepository.CursorMeansPosition | src/modules/notifications/notification.repository.js:18-24 | the cursor handed out means, when it comes back, the last row of the page |
| NotificationRepository.FirstReadStays | src/modules/notifications/notification.repository.js:64-83 | a row once read keeps the time of its first reading |
| NotificationRepository.NotificationTable.CreateNotification | src/modules/notifications/notification.repository.js:94-113 | inserts unless the event has a row; then, after whatever others have done meanwhile, returns the row the event has, or fails if it has none |
| NotificationRepository.NotificationTable.MarkAsRead | src/modules/notifications/notification.repository.js:64-74 | marks an own notification, keeping an earlier read time, and answers with it |
| NotificationRepository.NotificationTable.MarkAllAsRead | src/modules/notifications/notification.repository.js:76-83 | afterwards every notification of the recipient is read, at this time unless it was before, and no other row has changed |
| NotificationRepository.NotificationTable.DeleteNotification | src/modules/notifications/notification.repository.js:85-92 | deletes only the recipient's own, and says whether it did |
| NotificationRepository.NotificationTable.GetNotificationsForUserByCursor | src/modules/notifications/notification.repository.js:17-40 | rejects exactly the cursors that do not decode, throws exactly for ids no integer column can hold; else up to `limit` own rows below the cursor's position, newest first, none skipped, with a sendable cursor that means the last row |
| Limiter.RecentOfRecent | src/websocket/index.js:39-50 | pruning early changes no later reading of the window |
| Limiter.NoWindowExceeds | src/websocket/index.js:49-63 | no half-open 60 s window, wherever placed, holds more accepted times than the maximum |
| Limiter.RecentCounts | src/websocket/index.js:50 | the times kept are as many as were accepted less than 60 s ago |
| Limiter.WindowCounts | src/websocket/index.js:49-63 | the times in a window are the entries from its begin up to 60 s later |
| Limiter.EvictTracks | src/websocket/index.js:57-61 | dropping keys without recent times changes no later answer |
| Limiter.IpLimits.ConsumeHandshake | src/websocket/index.js:49-63 | allowed exactly if fewer than the maximum were accepted for the IP in the last 60 s of its whole history, pruning and eviction included |
| Limiter.IpLimits.Evict | src/websocket/index.js:57-61 | removes exactly the keys without a recent time |
| Limiter.IpLimits.ConsumeIpMessage | src/websocket/index.js:38-47 | allowed exactly if fewer than the maximum were accepted in the last 60 s since the IP was last forgotten |
| Limiter.IpLimits.Disconnect | src/websocket/index.js:143-145 | forgets an IP's message times exactly when it has no connection left |
| Reservations.BalancedStep | src/websocket/socketAuth.js:14-54 | every stretch between awaits keeps: an IP's count is its places held, at most the limit, absent at zero |
| Reservations.PlacesAreConserved | src/websocket/socketAuth.js:14-54 | that holds over every interleaving of sockets |
| Reservations.HoldersKeepPlaces | src/websocket/socketAuth.js:14-54 | at any moment a socket holds a place exactly if it was admitted, then accepted or still waiting, and not released since |
| Reservations.SecondReleaseDoesNothing | src/websocket/socketAuth.js:27-33 | giving a place back twice is giving it back once |
| Reservations.ConnectionCounts.Admit | src/websocket/socketAuth.js:16-26 | refuses exactly at the limit; goes on to authenticate exactly with a place taken |
| Reservations.ConnectionCounts.GiveBack | src/websocket/socketAuth.js:27-33 | frees the place if it is still held, and does nothing otherwise |
| Reservations.ConnectionCounts.Authenticated | src/websocket/socketAuth.js:35-53 | an accepted socket keeps its place, any other gives it back |
| Reservations.ConnectionCounts.ReleaseIpReservation | src/websocket/index.js:144 | the disconnect handler frees the place once |
| LabelKeys.EscapeIsOnePass | src/config/metrics.js:7 | the three replacements in a row equal one pass over the characters |
| LabelKeys.UnescapeInverts | src/config/metrics.js:7 | the escape has an inverse |
| LabelKeys.SortSorts | src/config/metrics.js:6 | sorting by name keeps exactly the labels, in order, whatever the collation does to other names |
| LabelKeys.JoinInjective | src/config/metrics.js:7-8 | two label lists with identifier names and one text are one list |
| LabelKeys.KeyIsTheSet | src/config/metrics.js:5-9 | two label sets share a key exactly when they hold the same names with the same values, in any order |
| LabelKeys.KnownEscapes | src/config/metrics.js:7 | backslash, quote and line break become the two characters of their escape, others stay |
| LabelKeys.KeyOfTwo | src/config/metrics.js:6-8 | the text for two labels, given in either order |
| Metrics.BucketsCumulate | src/config/metrics.js:25-27 | buckets are cumulative and at most the +Inf bucket |
| Metrics.CountInBuckets | src/config/metrics.js:25-27 | the loop counts the value in exactly the buckets it fits in |
| Metrics.Registry.Observe | src/config/metrics.js:11-28 | after any run of observations every series holds their count, exact sum and count per bound |
| Metrics.Registry.RenderHistogram | src/config/metrics.js:103-115 | the lines of a histogram are, for each series observed, the counts at most each bound, the total and the sum of its observations |
| Metrics.RenderedSeriesRise | src/config/metrics.js:105-114 | with ascending bounds the counts of every rendered series rise up to its +Inf line, which is its count |
| Metrics.SeriesInColumns | src/config/metrics.js:108-113 | a series is one line per bound with the number of observations at most it, then +Inf, sum and count |
| Metrics.SumInColumns | src/config/metrics.js:24 | an observation adds its value to the sum of its own series and to no other |

## Left out

- Metrics.Registry.Observe: asks for one bucket list per name, as every caller in the repository does; a second list would give a series buckets of its own that the rendered bounds do not describe.
- LabelKeys.KeyIsTheSet: label names are identifiers (no `=`, quote or comma), and the collation does not tie two names of one label set.
- Cursor.JsonRoundTrip: the parser reads the one shape that encoding produces; other JSON spellings of a position (reordered keys, spaces, escapes, further fields, ids beyond 2^53) are rejected here though the code accepts some of them, and padding characters inside a cursor are skipped here while the runtime may stop at them.
- NotificationRepository.NotificationTable.GetNotificationsForUserByCursor: how the database reads a timestamp text in another form than the one encoding produces is a parameter, and its refusal of the year 0 is not modelled.
- AuthService.AuthTables.RefreshAccessToken: statements throw at two points before COMMIT; at any other the transaction rolls back as it does there.
- OutboxRepository.OutboxTable.ClaimEvents: other claims appear as a set of locked rows; their interleaving is in OutboxLocks.
- OutboxWorker.Worker.Stop: not the wait for the batch in flight.
- OutboxWorker.Worker.Start: not the timer; start itself returns before the poll it sets off has ended.
- Limiter.IpLimits.ConsumeIpMessage: the budget of an IP is whole again after its last connection has gone.
- Reservations.ConnectionCounts.ReleaseIpReservation: not that every reservation is released; a socket that leaves before its handler is attached keeps its place.
- A statement of a live worker that takes effect after its caller has seen an error; a crashed worker that comes back under its old id starts without copies.
- `attempts` and the id sequences as 32-bit integers; PostgreSQL would refuse the increment past the width.
- Exactly-once emit or mail, the order of rows a claim returns, and that a deleted notification stays deleted: the code promises none of them.
- Statements on many rows (logout of all sessions, each sweep of the cleanup) are atomic steps; deadlocks between a refresh and the cleanup are not modelled.
- Deletion of users and its cascades, registration, password hashing, JWT signing and token hashing.
- Event validation and the notification builders beyond the error they may throw; titles, messages and metadata.
- The early connection check of `allowRequest`, which only reads the counts that the middleware keeps.
- Offset pages, the unread list and count, the session list, the dead-letter list, and the writing of preferences.
- Counters and gauges, the text format of rendered metrics, and floating-point rounding of sums; the logged and counted outcomes of the worker.
- Socket.IO rooms, Redis Pub/Sub, SMTP, HTTP routes, middleware, start-up and shutdown.
