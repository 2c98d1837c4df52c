# The coordination core of zagforge, modelled in Dafny

Zagforge keeps repository snapshots up to date. A push becomes a job, a worker claims it and reports back, and
the result is served from a cache; around that stand rate limits, webhooks, sessions, organisations and invites.
Most of what these promise is a promise about runs: several actors, each doing a few queries, share tables that
only some statements guard. This project models that part and proves what holds in every run.

Where the source is a protocol, the model is a transition system: states, events, `Enabled`, `Apply`, and runs as
sequences of states. A request is split at every point where another actor can get in between. Beside each system
stands a class or method that does what the source does, in place and statement by statement, with contracts that
tie it to the system's functions. Pure code is modelled by functions.

| file | models |
|---|---|
| `JobTables`, `JobLifecycle` | the job and snapshot tables, their SQL statements, and all actors as one system |
| `JobInvariants`, `JobHistory` | what every step keeps |
| `JobTheorems`, `JobCallbacks`, `JobLocks`, `JobFreshness`, `JobYoungest`, `JobDeliveries`, `JobSnapshots`, `JobFairness`, `JobOvertaking`, `JobScenarios` | what holds of whole runs, and runs that break what does not |
| `JobService` | the handlers and statements as they are written, and their link to the system |
| `WorkerPool` | the poller's admission and the runner's drain |
| `RateLimit` | the sliding window |
| `WebhookDelivery` | retries and backoff |
| `Sessions`, `SessionRotation`, `SessionTokens` | refresh-token rotation and revocation |
| `OrgMembership`, `AuthRaces`, `OrgRaces` | owners and members in the two services |
| `Invites`, `InviteCrowds`, `InviteLosses` | invites and the member limit |
| `Pagination`, `Decimal`, `JobToken` | cursors, page sizes and job tokens |
| `Assembly`, `Documents`, `ContextCache` | streaming assembly and its cache |
| `Wrappers`, `Sets`, `Paths` | options, ordered queries, and stretches of runs, shared by the others |

## Where the code promises less than its comments

Each of these has a lemma with the run or input that shows it, and a lemma that says exactly when the promise holds
or under which premise.

- A claim, Start or Complete between a push's read of the active jobs and its guarded update makes the update hit no
  row. The push is accepted and its commit is on no job (`ClaimInWindowLosesPush`, `StartInWindowLosesPush`,
  `UpdateHitsExactlyWhen`).
- `created_at` is the time a transaction began, not the time it took the lock, so the newest row need not be the
  last push (`LateLockReordersJobs`, `YoungestCarryExactlyWhen`).
- A redelivered push moves a queued job back to its older commit, because only an insert looks at the delivery id
  (`RedeliveryRewinds`, `RedeliveryIsNoOpExactlyWhen`).
- docs/architecture/phase2/05-authentication.md has the snapshot insert ignore conflicts, and the statement does not.
  A job whose key is taken, by an upload or an earlier job, can never succeed (`UploadBlocksJob`, `BlockedForever`,
  `SucceedsExactlyWhen`).
- Claims are not first in, first out while a push holds a job's row, and any number can pass it
  (`AnyNumberOvertake`, `OvertakenExactlyWhen`).
- The poller's failure write does not look at the status and can overturn a verdict (`PollerOverturnsVerdict`,
  `VerdictChangesExactlyWhen`).
- Requests in the same microsecond count once in the rate limiter (`EqualStampsSlipThrough`, `CountIsExactWhen`).
- Two refreshes of one token at once leave two live tokens (`SharedTokenSplits`, `OneLiveInRuns`), and so does a
  rotation whose revocation fails (`RotationKeepsOneLiveExactlyWhen`).
- A transfer of ownership to oneself and a creation that stops half-way leave no owner (`SelfTransferLeavesNone`,
  `AuthStepKeepsOneOwnerExactlyWhen`).
- In the auth service a removal that overlaps a transfer can leave no owner and two transfers can leave two
  (`StaleRemovalLeavesNone`, `TwoTransfersLeaveTwo`, `BalanceKeptExactlyWhen`).
- The API service refuses admins changes of owner roles, but they may invite owners and remove all but the last one
  (`AdminChangesOwnersExactlyWhen`).
- In the API service two owners demoting each other at once leave no owner (`RacingDemotionsLeaveNone`,
  `OwnerSurvives`, `PendingWritesCanRemoveAllExactlyWhen`).
- Concurrent accepts can exceed the member limit, by one less than their number (`RacingAcceptsOvershoot`,
  `OvershootBound`, `PartyExceedsExactlyWhen`).
- An accept by someone who is a member already uses the invite up (`MemberUsesInviteUp`, `UsedUpExactlyWhen`,
  `LostExactlyWhen`).
- Jobs created in the same microsecond can be skipped between pages (`TieIsSkipped`, `AlwaysListedExactlyWhen`).
- A query may name a snapshot of another repository, and its tree is then cached under this one
  (`ForeignSnapshotIsCached`, `HitCanDifferExactlyWhen`).

## Model

| member | source | states |
|---|---|---|
| JobTheorems.AtMostOneQueued | services/api/internal/service/job.go:66-124 | In every state of every interleaving of pushes, claims, callbacks, the watchdog and uploads, a branch has at most one queued job, for any lock hash, colliding or not. |
| JobTheorems.FrozenForever | services/shared/go/store/jobs.sql.go:277-298 | Over any stretch of a run a job keeps its branch, delivery id and creation time; once it has left the queue it never returns and its sha never changes; once it is finished it stays finished. |
| JobTheorems.StartsAndSnapshotAgree | services/api/internal/handler/callback/start.go:52-122 | All successful Start replies for a job, repeated or racing, carry one sha, and a snapshot that names the job has that sha and the job's branch. |
| JobTheorems.OneInsertPerJob | services/api/internal/handler/callback/complete.go:53-106 | Over duplicated, retried and racing callbacks at most one snapshot is inserted per job, in every state of every run. |
| JobTheorems.SnapshotPerSucceededJob | services/api/internal/handler/callback/complete.go:53-106 | A succeeded job owns exactly one snapshot, the one under its own repository, branch and sha; no two succeeded jobs share that key. |
| JobSnapshots.SucceedsExactlyWhen | services/api/internal/handler/callback/complete.go:65-106 | A step makes a job succeed if and only if it is a successful Complete of the job while it is unfinished and its snapshot key is free. |
| JobSnapshots.BlockedForever | services/shared/go/store/snapshots.sql.go:179-183 | A started job whose snapshot key is taken never succeeds, in any later state of any run. |
| JobSnapshots.UploadBlocksJob | services/shared/go/store/snapshots.sql.go:111-124 | A run in which an upload takes the key of a running job and its successful Complete is rolled back. |
| JobTheorems.TimedOutNeverGainsSnapshot | services/shared/go/store/jobs.sql.go:260-267 | A job the watchdog failed has no snapshot then or at any later state, whatever callbacks still arrive. |
| JobTheorems.ClaimedOnce | services/shared/go/store/jobs.sql.go:14-25 | No job is claimed twice in a run. |
| JobTheorems.VerdictChangesExactlyWhen | services/worker/internal/worker/poller/poller.go:100-109 | The status of a finished job changes in a step if and only if the step is the poller's unguarded failure write on a job that finished with a verdict other than failed. |
| JobTheorems.StepLowersRank | services/shared/go/store/types.go:17-23 | With rank queued > running > finished, every step leaves a job's status alone or lowers its rank, if the poller's failure write finds the job running. |
| JobTheorems.AtMostTwoStatusChanges | services/worker/internal/worker/poller/poller.go:91-110 | Under that premise a job makes at most two status changes in any run, and each one made is taken off its remaining rank. |
| JobScenarios.PollerOverturnsVerdict | services/worker/internal/worker/poller/poller.go:100-109 | Without the premise the property fails: a run in which a job succeeds, stores its snapshot, and is then marked failed by the poller. |
| JobFreshness.PublishedExactlyWhen | services/api/internal/service/job.go:83-124 | A committing push leaves the newest job of its branch with its sha if and only if it inserted a row, or its guarded update hit one, or the newest job had that sha already. |
| JobFreshness.UpdateHitsExactlyWhen | services/api/internal/service/job.go:75-91 | A push's guarded update finds its row still queued if and only if no claim, Start or recorded Complete of that row falls between the push's read and its update. |
| JobFreshness.QueuedUntilTaken | services/shared/go/store/jobs.sql.go:14-25 | A queued job is still queued at a later state of a run if and only if none of those steps on it lies in between. |
| JobFreshness.NewestIsLastPush | services/api/internal/service/job.go:75-124 | If no such step falls into any window between a read and its update, the job created last on each branch carries the sha of the last accepted push, in every state. |
| JobFreshness.ClaimInWindowLosesPush | services/api/internal/service/job.go:75-91 | An interleaving that breaks it: a claim in the window, after which the push is accepted and its sha is on no job at all. |
| JobFreshness.StartInWindowLosesPush | services/api/internal/handler/callback/start.go:80-94 | The same with a worker's Start callback in the window and no claim in the run. |
| JobYoungest.YoungestCarryExactlyWhen | services/api/internal/service/job.go:66-124 | From a commit to the next one on its branch, the rows with the greatest created_at carry the last accepted sha if and only if the push found the order it needed: an inserting push only older rows, an updating one the youngest row, or youngest rows that had the sha already. |
| JobYoungest.YoungestIsLastPush | services/api/internal/service/job.go:66-124 | So, with undisturbed windows and rows inserted in the order in which their transactions began, the job with the greatest created_at always carries the last accepted sha. |
| JobYoungest.LateLockReordersJobs | services/api/internal/service/job.go:66-124 | A run without that order: a push that began first and got the lock last inserts the older row, so the greatest created_at belongs to the earlier sha. |
| JobDeliveries.OneJobPerDelivery | services/shared/go/store/jobs.sql.go:46-50 | In every state of every run a delivery id is on at most one job, committed or being inserted. |
| JobDeliveries.RedeliveryIsNoOpExactlyWhen | services/api/internal/service/job.go:83-120 | In every run, a push whose delivery id is on a job when it commits is an update, and leaves the tables as they are if and only if its update missed or the row carries the sha already. |
| JobDeliveries.RedeliveryRewinds | services/api/internal/service/job.go:83-106 | A run in which a redelivered push moves a queued job back to its older sha. |
| JobFairness.ClaimConsumesAhead | services/shared/go/store/jobs.sql.go:14-25 | A claim made while a queued job is free to be taken removes one of the jobs created no later than it. |
| JobFairness.BoundedWait | services/shared/go/store/jobs.sql.go:14-25 | While a job is queued, the claims made number fewer than the queued jobs created no later than it, itself included, plus the pushes then in flight begun no later, plus those that begin meanwhile dated no later, plus the claims made while an updating push held the row; no other push counts, and clocks may stand still or go back. |
| JobFairness.BoundedWaitInOrder | services/shared/go/store/jobs.sql.go:14-25 | With begin times that increase and the row free whenever a claim is made, the bound is fixed when the wait begins. |
| JobOvertaking.OvertakenExactlyWhen | services/shared/go/store/jobs.sql.go:17-23 | A claim can pass over an older queued job if and only if that job's row is locked, another queued row is free, and all the free ones are younger. |
| JobOvertaking.AnyNumberOvertake | services/shared/go/store/jobs.sql.go:17-23 | For every n a run with n claims in a row that take younger jobs while the oldest stays queued, its row held by an updating push. |
| JobInvariants.OneHolderPerBranch | services/api/internal/service/job.go:66-72 | Two pushes to one branch are never past the advisory lock together. |
| JobLocks.WaitsExactlyWhen | services/api/internal/service/job.go:66-72 | In every run a push waits for its lock if and only if a push past its own lock step has the same hash of repository and branch; no lock is left behind. |
| JobInvariants.StepKeepsCore | services/api/internal/service/job.go:66-124 | Every step keeps the lock discipline, what each in-flight push knows about the table, and the queue invariant. |
| JobHistory.StepKeepsHistory | services/api/internal/handler/callback/complete.go:53-106 | Every step keeps the agreement between the log of replies, inserts, claims and timeouts and the two tables. |
| JobHistory.StepPersists | services/shared/go/store/jobs.sql.go:277-298 | One step never unfreezes a job: the step form of FrozenForever. |
| JobService.JobDatabase.ClaimJob | services/shared/go/store/jobs.sql.go:14-25 | Reports none exactly when nothing is queued; otherwise takes an oldest queued row, sets it running and started now, and touches nothing else. |
| JobService.JobDatabase.ClaimOne | services/worker/internal/worker/poller/poller.go:91-110 | A claim, after which a job whose repository cannot be loaded ends failed with that message. |
| JobService.JobDatabase.GetActiveJobsForBranch | services/shared/go/store/jobs.sql.go:83-89 | Lists exactly the queued and running rows of a branch, each once, oldest first. |
| JobService.JobDatabase.CreateJob | services/shared/go/store/jobs.sql.go:46-50 | Inserts a queued row, every column given, unless the delivery id is on a row already; an empty delivery id never is. |
| JobService.JobDatabase.Start | services/api/internal/handler/callback/start.go:52-97 | Replies with the row's sha and branch if and only if it is queued or running, conflict with its status if and only if it is over, not found if and only if there is no row; a queued row becomes running and started now, and nothing else changes. |
| JobCallbacks.OverIsNeverStarted | services/api/internal/handler/callback/start.go:74-78 | In every run, once a job is over no later Start for it succeeds, however often it is retried. |
| JobService.JobDatabase.Complete | services/api/internal/handler/callback/complete.go:53-106 | Each reply if and only if its case holds; a recorded verdict sets status, error and finish time and inserts the snapshot with its columns, and any other reply, the rollback on a taken key included, changes nothing. |
| JobService.JobDatabase.UploadSnapshot | services/shared/go/store/snapshots.sql.go:111-124 | A new snapshot, or the existing one with its job kept and every other column replaced. |
| JobService.JobDatabase.TimeoutRunningJobs | services/shared/go/store/jobs.sql.go:260-267 | Every row running since more than 1,200,000,000 microseconds before now ends failed and finished now, every other row stays, and the count is the number of the former. |
| JobCallbacks.TimedOutExactlyWhen | services/shared/go/store/jobs.sql.go:260-267 | A step times a job out if and only if it is the watchdog's and the job has been running for more than twenty minutes. |
| JobCallbacks.NoneStuckAfterTimeout | services/api/internal/handler/watchdog/watchdog.go:40-57 | Right after the watchdog has run, every running job started within the last twenty minutes, in every run. |
| JobCallbacks.StartTimeIsWhenItStarted | services/shared/go/store/jobs.sql.go:291-298 | The start time the watchdog looks at is that of the claim or Start that set the job running. |
| JobService.HandlePush | services/api/internal/service/job.go:38-124 | With no other actor in between: the first queued job of the branch gets the sha, or a job is inserted, or a taken delivery id leaves the table alone. |
| JobService.UninterruptedPush | services/api/internal/service/job.go:38-124 | The push steps of the lifecycle, run back to back, do to the table what HandlePush does and leave no lock behind: the split push refines the whole one. |
| WorkerPool.NeverOverLimit | services/worker/internal/worker/poller/poller.go:73-87 | At every moment of every run, the in-flight counter and the number of executing jobs stay within maxConcurrency, with jobs finishing at any point. |
| WorkerPool.DrainedMeansReturned | services/shared/go/runner/runner.go:76-105 | When Drain has returned nil, by the wait group or at the deadline, every function handed to GoWait has returned. |
| WorkerPool.StepKeepsInv | services/shared/go/runner/runner.go:56-105 | Every step keeps the counter and the wait group equal to the numbers of goroutines in the phases each counts, and room for the rest of the batch. |
| WorkerPool.PhaseTotals | services/shared/go/runner/runner.go:56-62 | How a goroutine's change of phase moves the two totals. |
| WorkerPool.Worker.GoWait | services/shared/go/runner/runner.go:56-62 | Counts the job and then starts it, with other goroutines running in between; the whole is a run of the step model. |
| WorkerPool.Worker.PollBatch | services/worker/internal/worker/poller/poller.go:73-87 | Starts the claimed jobs in order and no others, no more than there were free slots when the batch began, and stops early only when cancelled or when a claim yields no job; other jobs finish meanwhile. |
| WorkerPool.Worker.Drain | services/shared/go/runner/runner.go:76-105 | Returns nil exactly when the wait group was seen at zero or the counter is zero, and then no function is running. |
| RateLimit.SetAgreesWithHistory | services/api/internal/middleware/ratelimit/ratelimit.go:73-95 | The pruned and expiring set holds exactly the stamps that the whole history has in the window. |
| RateLimit.CountIsExactWhen | services/api/internal/middleware/ratelimit/ratelimit.go:84-97 | ZCARD is the number of requests in the window if and only if no two of them share a microsecond; it is never more. |
| RateLimit.WindowBound | services/api/internal/middleware/ratelimit/ratelimit.go:73-105 | No window of the configured length, wherever it starts, has allowed requests in more distinct microseconds than MaxRequests, for any history. |
| RateLimit.RequestsBound | services/api/internal/middleware/ratelimit/ratelimit.go:73-105 | If no two allowed requests of a window share a microsecond, the window holds at most MaxRequests of them. |
| RateLimit.EqualStampsSlipThrough | services/api/internal/middleware/ratelimit/ratelimit.go:77-88 | Counting requests instead of microseconds the bound fails: three requests in one microsecond pass a limit of two. |
| RateLimit.ClosedWindowHoldsOneMore | services/api/internal/middleware/ratelimit/ratelimit.go:75-82 | The bound is for windows open at the start: requests exactly one window apart both pass a limit of one. |
| RateLimit.Limiter.Check | services/api/internal/middleware/ratelimit/ratelimit.go:73-105 | One pipeline updates the key to what the longer history makes of it, and allows the request exactly when earlier ones lie in fewer than MaxRequests distinct microseconds of the window, reporting what remains. |
| WebhookDelivery.RowReflectsHistory | services/auth/internal/service/webhook/dispatcher.go:105-151 | After any legal sequence of sends the three columns encode it: the attempts recorded, and closed exactly when settled. |
| WebhookDelivery.SentAtMostFiveTimes | services/auth/internal/service/webhook/dispatcher.go:105-151 | At most five sends when results are stored; at most five recorded ones in any case. |
| WebhookDelivery.ClosedExactlyWhen | services/auth/internal/service/webhook/dispatcher.go:110-141 | A delivery is closed after its i-th send if and only if that send's result was written and was a 2xx or the fifth written. |
| WebhookDelivery.NeverSentAfterClose | services/auth/internal/store/webhooks.sql.go:154-159 | A settled delivery is never sent again: its history has no legal continuation. |
| WebhookDelivery.SuccessEnds | services/auth/internal/service/webhook/dispatcher.go:110-119 | A recorded 2xx is the last send. |
| WebhookDelivery.PendingExactlyFrom | services/auth/internal/service/webhook/dispatcher.go:124-129 | After the k-th recorded failure, short of the fifth, the row is pending at exactly the times from 2^k minutes later on. |
| WebhookDelivery.BackoffDoubles | services/auth/internal/service/webhook/dispatcher.go:124-129 | So the next send comes at least 2^k minutes after the k-th recorded failure. |
| WebhookDelivery.WaitsAddUp | services/auth/internal/service/webhook/dispatcher.go:124-129 | After k recorded failures the next send comes at least 2 + 4 + ... + 2^k minutes after the first, also when some results were not written. |
| WebhookDelivery.FifthSendAfterHalfAnHour | services/auth/internal/service/webhook/dispatcher.go:124-129 | The send after four recorded failures comes at least thirty minutes after the first. |
| WebhookDelivery.BatchSendsOnce | services/auth/internal/service/webhook/dispatcher.go:94-102 | A batch sends each of its deliveries at most once and no other. |
| WebhookDelivery.Dispatcher.Dispatch | services/auth/internal/service/webhook/dispatcher.go:57-84 | One delivery row without attempts for every active subscription of the organisation to the event whose insert succeeds, and for no other; the rows there were stay. |
| WebhookDelivery.Dispatcher.ListPendingDeliveries | services/auth/internal/store/webhooks.sql.go:154-159 | Up to the limit, the pending rows oldest first, with none older left out and none missing if the limit is not reached. |
| WebhookDelivery.Dispatcher.ProcessDelivery | services/auth/internal/service/webhook/dispatcher.go:105-151 | One send and the columns of its recorded result, spelled out; every row remains what its history makes of it. |
| WebhookDelivery.Dispatcher.DeliverPending | services/auth/internal/service/webhook/dispatcher.go:87-103 | A batch over the listed rows, one attempt for each that was sent; every row remains what its history makes of it. |
| Sessions.RevokedIssuesNoMore | services/auth/internal/handler/session/refresh.go:45-78 | Query by query interleaved: once a session is revoked, every token issued for it, at any later time, comes from a Refresh that had read the session before. |
| SessionTokens.IssuedFromUsableToken | services/auth/internal/handler/session/refresh.go:34-48 | Everything ever issued came from a refresh token of the session that was not revoked and not past its expiry when it was read. |
| SessionTokens.QuietSessionEnds | services/auth/internal/handler/session/refresh.go:45-78 | So a session that stores no new refresh token for the lifetime of one is issued nothing after that. |
| Sessions.RunPersists | services/auth/internal/store/sessions.sql.go:128-140 | A session keeps its user and absolute expiry over any run, and a revoked session stays revoked. |
| Sessions.AccessBoundedBySession | services/auth/internal/service/token/access.go:24-30 | However often a session is refreshed, an access token expires no later than the session plus the access lifetime plus the time its request took after reading the session; it lives for the access lifetime less at most a second. |
| Sessions.RotationKeepsOneLiveExactlyWhen | services/auth/internal/handler/session/refresh.go:56-78 | A serial Refresh keeps at most one live refresh token per session if and only if the old token's revocation was written. |
| SessionRotation.OneLiveInRuns | services/auth/internal/handler/session/refresh.go:45-78 | In every state of every interleaved run in which no two unfinished Refreshes hold the same token and old tokens are revoked, each session has at most one live refresh token, with logouts and revocations anywhere in between. |
| SessionRotation.StepKeepsOneHolder | services/auth/internal/store/refresh_tokens.sql.go:75-97 | Each step keeps the account behind it: a session's live token and the Refreshes about to store its next one are never more than one together. |
| SessionRotation.SharedTokenSplits | services/auth/internal/handler/session/refresh.go:45-78 | Conversely, from any state in which two unfinished Refreshes hold one token of a usable session, they can go on to leave the session with two live tokens. |
| Sessions.RacingRefreshesLeaveTwo | services/auth/internal/handler/session/refresh.go:45-78 | A whole run in which that happens. |
| Sessions.SerialRefresh | services/auth/internal/handler/session/refresh.go:34-104 | The queries of a Refresh run back to back are the serial Refresh, whether it is refused for its token, for its session, or goes through. |
| Sessions.SessionStore.Login | services/auth/internal/service/session/session.go:36-76 | A session that expires at sign-in plus maxAge and a first refresh token with its own lifetime; one live token per session is kept. |
| Sessions.SessionStore.Refresh | services/auth/internal/handler/session/refresh.go:34-104 | Refused for the token if and only if it is unknown, revoked or past its expiry, else for the session if and only if that is missing, revoked or past; otherwise the rows are rotated and the access token lives for its lifetime less at most a second. One live token per session is kept if and only if it was refused or the old token was revoked. |
| Sessions.SessionStore.Logout | services/auth/internal/handler/session/logout.go:14-22 | The token and its session end up revoked now, and nothing else changes. |
| Sessions.SessionStore.LogoutAll | services/auth/internal/handler/session/logout.go:31-45 | Every session and refresh token of the user that was not revoked is revoked now, and nothing else changes. |
| Sessions.SessionStore.RevokeSession | services/auth/internal/handler/session/sessions.go:59-88 | Refused for an unknown session or another user's; otherwise the session and its unrevoked tokens are revoked now, and nothing else changes. |
| OrgMembership.AuthRunKeepsOneOwner | services/auth/internal/handler/org/members.go:42-236 | Every serial run of creation, deletion, role change, removal, joining and transfer keeps exactly one owner per organisation, if the operations it allows are proper. |
| AuthRaces.BalanceKeptExactlyWhen | services/auth/internal/handler/org/members.go:76-98 | Query by query interleaved: a step keeps the number of owners less the transfers half-way if and only if it is not stale, that is, does not change or remove someone who is an owner by now, promote someone who is one or has gone, demote someone who is none, or leave a transfer half-way. |
| AuthRaces.OneOwnerUnlessStale | services/auth/internal/handler/org/members.go:42-236 | So, in every interleaving without a stale step, an organisation with one owner has one whenever no transfer of it is half-way. |
| AuthRaces.OneOwnerWithTransfersAlone | services/auth/internal/handler/org/members.go:202-236 | The same if, in every state, no other request of the organisation is past its checks while a transfer of it is in flight, and transfers name someone else and are carried through. |
| AuthRaces.StaleRemovalLeavesNone | services/auth/internal/handler/org/members.go:138-159 | A run in which a removal that read its target before a transfer promoted it leaves no owner. |
| AuthRaces.TwoTransfersLeaveTwo | services/auth/internal/handler/org/members.go:208-236 | A run in which two transfers at once leave two owners. |
| AuthRaces.UninterruptedRequest | services/auth/internal/handler/org/members.go:42-236 | The queries of a role change, removal or transfer run back to back do what the serial handler does. |
| OrgMembership.TransferKeepsOneOwnerExactlyWhen | services/auth/internal/handler/org/members.go:202-236 | An allowed transfer leaves exactly one owner if and only if it names someone else and is carried through, or names the actor and stops after the promotion. |
| OrgMembership.SelfTransferLeavesNone | services/auth/internal/handler/org/members.go:208-236 | Transferring to oneself is not refused and leaves the organisation without an owner. |
| OrgMembership.AuthStepKeepsOneOwnerExactlyWhen | services/auth/internal/handler/org/members.go:42-236 | A serial operation keeps exactly one owner per organisation if and only if it is refused or proper: a creation seats its owner; a transfer names someone else and is carried through, or names the actor and is not. |
| OrgMembership.ApiNeverLosesLastOwner | services/api/internal/handler/org/handler.go:297-318 | No serial invite, role change or removal of the API service takes an organisation that has an owner to one that has none. |
| OrgMembership.ApiKeepsAnOwner | services/api/internal/handler/org/handler.go:352-371 | The same, and the owners of the other organisations are untouched. |
| OrgRaces.OwnerSurvives | services/api/internal/handler/org/handler.go:253-371 | Query by query interleaved: an organisation that has an owner keeps one, as long as at most one request at a time is past its checks and about to take an owner of it away. |
| OrgRaces.LastOwnerLostExactlyWhen | services/api/internal/handler/org/handler.go:297-318 | A step takes an organisation's last owner if and only if it is the write of such a request and its target is the only owner. |
| OrgRaces.PendingWritesCanRemoveAllExactlyWhen | services/api/internal/handler/org/handler.go:312-371 | The writes of requests past their checks can leave an organisation without an owner if and only if every owner is the target of one. |
| OrgRaces.RacingDemotionsLeaveNone | services/api/internal/handler/org/handler.go:297-318 | A run in which two owners demote each other, both counting before either writes, and none is left. |
| OrgRaces.UninterruptedRequest | services/api/internal/handler/org/handler.go:197-371 | The queries of an invitation, role change or removal run back to back do what the serial handler does. |
| OrgMembership.OrgStore.CreateOrg | services/auth/internal/handler/org/org.go:34-54 | The two inserts of a creation; one owner per organisation is kept if and only if the second one succeeds. |
| OrgMembership.OrgStore.UpdateMemberRole | services/auth/internal/handler/org/members.go:55-98 | Done if and only if the actor is an owner or admin and the target an admin or member, who then has the role; anyone else is forbidden and nothing changes; one owner per organisation is kept. |
| OrgMembership.OrgStore.RemoveMember | services/auth/internal/handler/org/members.go:127-159 | Done if and only if the actor is an owner or admin and the target an admin or member, who then has no seat; anyone else is forbidden and nothing changes; one owner per organisation is kept. |
| OrgMembership.OrgStore.DeleteOrg | services/auth/internal/handler/org/org.go:158-190 | Done if and only if the actor is an owner; the organisation goes with its seats and no other. |
| OrgMembership.OrgStore.TransferOwnership | services/auth/internal/handler/org/members.go:174-236 | Reply and table of the two writes, the second of which may fail; one owner per organisation is kept if and only if the transfer was refused, or names someone else exactly when both writes succeed. |
| OrgMembership.ApiOrgStore.InviteMember | services/api/internal/handler/org/handler.go:197-248 | Forbidden if and only if the caller is no owner or admin, a conflict if and only if the user is seated already; otherwise the user gets the role, member by default. |
| OrgMembership.ApiOrgStore.UpdateMemberRole | services/api/internal/handler/org/handler.go:253-318 | Done if and only if the target is seated and the caller is an owner, or an admin where neither the old nor the new role is owner, and it does not demote the last owner; otherwise nothing changes. |
| OrgMembership.ApiOrgStore.RemoveMember | services/api/internal/handler/org/handler.go:326-371 | Done if and only if the caller is an owner or admin, the target is seated and not the last owner; otherwise nothing changes. |
| OrgMembership.AdminChangesOwnersExactlyWhen | services/api/internal/handler/org/handler.go:284-296 | An admin's request changes who the owners are if and only if it invites someone as an owner or removes one of several: only role changes are refused. |
| OrgRaces.ChangesAreAuthorised | services/api/internal/handler/org/handler.go:39-50 | In every interleaving, every change of a seat is the founding of its organisation or the write of a request whose caller was an owner or admin when it entered. |
| AuthRaces.ChangesAreAuthorised | services/auth/internal/handler/org/members.go:55-58 | The same in the auth service, arrivals apart, and for transfers the actor was an owner. |
| Invites.SettledForever | services/auth/internal/store/invites.sql.go:14-19 | Accepted, revoked and expired are absorbing in every run, an invite's organisation, role and expiry never change, and its row goes only when its organisation is deleted, for good. |
| Invites.OneMembershipPerInvite | services/auth/internal/handler/invite/invite.go:194-235 | At most one step of a run creates a membership from a given invite, under any interleaving of Accept, Revoke and expiry; that step seats someone in the invite's organisation with the invite's role. |
| Invites.StepKeepsInv | services/auth/internal/store/invites.sql.go:14-19 | Every step keeps the account: an invite is accepted, before its expiry, if and only if it was granted, is being joined or was lost, and only one of these. |
| Invites.OvershootBound | services/auth/internal/handler/invite/invite.go:200-235 | With a fixed limit and at most n Accepts past the check at a time, an organisation never exceeds its limit by more than n - 1; with serial Accepts it never exceeds it. |
| Invites.AcceptStaysWithinExactlyWhen | services/auth/internal/handler/invite/invite.go:200-214 | A serial Accept that joins ends within the current limit if and only if the member count fits in an int32, which is how the handler compares it. |
| InviteCrowds.RacingAcceptsOvershoot | services/auth/internal/handler/invite/invite.go:200-235 | For every limit and every n, a run from the start in which n Accepts all count while one seat is free takes the organisation to its limit plus n - 1. |
| InviteCrowds.PartyExceedsExactlyWhen | services/auth/internal/handler/invite/invite.go:200-235 | The Accepts past the check can take an organisation above a limit if and only if there are more of them with free seats and usable invites of their own than free seats. |
| InviteLosses.UsedUpExactlyWhen | services/auth/internal/handler/invite/invite.go:216-235 | A serial Accept of an open invite leaves it accepted with the members unchanged if and only if the organisation has a limit, the int32 count is below it and the user is seated already. |
| InviteLosses.LostExactlyWhen | services/auth/internal/handler/invite/invite.go:216-235 | Interleaved, a step loses an accepted invite if and only if the request that marked it gives up, or finds its seat taken or its organisation gone. |
| InviteLosses.NothingForItExactlyWhen | services/auth/internal/handler/invite/invite.go:216-235 | In every run, an accepted invite that no request is still joining has yielded no membership if and only if such a step lies in the run. |
| InviteLosses.LostForever | services/auth/internal/handler/invite/invite.go:216-235 | An invite lost at some step yields no membership anywhere in the run. |
| InviteLosses.MemberUsesInviteUp | services/auth/internal/handler/invite/invite.go:216-235 | A run from the start in which a member uses up an invite to their own organisation. |
| Invites.UninterruptedAccept | services/auth/internal/handler/invite/invite.go:194-235 | The queries of an Accept run back to back are the serial Accept, whether it is refused, full, fails or joins. |
| Invites.InviteStore.Create | services/auth/internal/handler/invite/invite.go:24-90 | Forbidden if and only if the actor is no owner or admin, full if and only if the int32 count has reached the limit; otherwise a pending invite good for seven days. |
| Invites.InviteStore.Accept | services/auth/internal/handler/invite/invite.go:177-235 | Each reply if and only if its case holds, with the tables it leaves; settled invites stay as they were and no organisation is raised above its limit. |
| Invites.InviteStore.Revoke | services/auth/internal/handler/invite/invite.go:133-175 | Forbidden if and only if the actor is no owner or admin; otherwise only a pending invite of that organisation is revoked, and nothing else changes. |
| Invites.InviteStore.ExpirePending | services/auth/internal/store/invites.sql.go:83-86 | Marks exactly the pending invites whose expiry lies before now as expired, and deletes none. |
| Pagination.AlwaysListedExactlyWhen | services/api/internal/handler/api/jobs.go:69-92 | A job is in every listing of a table from a cursor above it, for every page size and every order of equal times, if and only if no other job of the repository was created at the same time. |
| Pagination.ListedExactlyWhen | services/api/internal/handler/api/jobs.go:69-92 | A job there from the start is in a given listing if and only if no full page of it ends between the job and another created at the same time, whatever is inserted meanwhile. |
| Pagination.ListingIsComplete | services/api/internal/handler/api/jobs.go:69-92 | With distinct creation times and only newer jobs arriving, following next_cursor lists exactly the jobs below the first cursor, each once, newest first, in n / limit + 1 pages. |
| Pagination.ListingIsOrdered | services/shared/go/store/jobs.sql.go:202-208 | However the table changes between pages, the listing is in descending order and repeats no job. |
| Pagination.ListingStops | services/api/internal/handler/api/jobs.go:87-90 | Even with equal creation times the full pages hold no more than the jobs there were. |
| Pagination.TieIsSkipped | services/api/internal/handler/api/jobs.go:87-90 | Two jobs created in the same microsecond, page size one: the second is never shown. |
| Pagination.ListJobs | services/api/internal/handler/api/jobs.go:69-92 | One request: jobs of the repository below the cursor, and none newer left off a full page; the next cursor is the last creation time of a full page, and there is none otherwise. |
| Pagination.LimitOfNumeral | services/shared/go/httputil/params.go:31-44 | A page size is always from 1 to 100; numerals in that range are taken as they are, larger int64 ones become 100, and everything else becomes 50. |
| JobToken.AcceptedExactlyWhen | services/shared/go/jobtoken/jobtoken.go:52-89 | Validate accepts exactly the tokens that the current or the previous key signed for the job with an unexpired int64 expiry, and reports as expired exactly those with an expired one. |
| JobToken.InvalidExactlyWhen | services/shared/go/jobtoken/jobtoken.go:66-83 | It answers invalid exactly for strings that no trusted key signed for the job. |
| JobToken.PayloadInjective | services/shared/go/jobtoken/jobtoken.go:91-92 | Distinct pairs of job id and expiry are signed as distinct payloads, also when job ids contain colons. |
| JobToken.TokenDetermines | services/shared/go/jobtoken/jobtoken.go:91-97 | A token determines its expiry and its MAC. |
| JobToken.TwoJobsMeanCollision | services/shared/go/jobtoken/jobtoken.go:52-97 | A token accepted for two jobs is a collision of the MAC on two different messages. |
| JobToken.GoodUntilExpiry | services/shared/go/jobtoken/jobtoken.go:38-64 | A signed token is accepted through its last second and expired after it, by its signer and by one that has since rotated to another key. |
| Decimal.ParseFormat | services/shared/go/jobtoken/jobtoken.go:74-77 | Every int64 survives printing and parsing; numerals outside that range are refused. |
| Decimal.FormatSpelled | services/shared/go/jobtoken/jobtoken.go:91-97 | Numbers are printed digit by digit, most significant first, with a minus sign for negative ones. |
| Decimal.ParseSigned | services/shared/go/jobtoken/jobtoken.go:74-77 | A sign is read off the front of a numeral, and the number must fit in 64 bits. |
| JobToken.HexSpelled | services/shared/go/jobtoken/jobtoken.go:95-96 | Bytes are printed as two lower-case hexadecimal digits each, in order. |
| Assembly.Assemble | services/api/internal/service/assembly/assembly.go:31-57 | Whatever fails, the output is a prefix of the rendered document; nil is returned exactly when it is the whole document and the last write reported no error, and always when nothing fails. |
| Documents.RenderNone | services/api/internal/service/assembly/assembly.go:32-39 | Without files the document is its heading line, spelled out, with at most eight characters of the sha. |
| Documents.RenderOneMore | services/api/internal/service/assembly/assembly.go:42-55 | Each further file adds its path as a heading and its fetched content between fences with its language, or text, spelled out. |
| Documents.ContentsTellApart | services/api/internal/service/assembly/assembly.go:42-55 | Blob stores that differ on exactly one hash, and that one listed, give different documents. |
| Assembly.Stopped | services/api/internal/service/assembly/assembly.go:40-55 | Stopping before or inside a piece leaves a prefix, and less than the document unless the piece was the last. |
| ContextCache.CachedIsGenuine | services/api/internal/handler/query/query.go:141-175 | In every run, with names, trees and requests changing at any point, every cached document is a complete rendering of a name and a tree that were current when a request with its key read them. |
| ContextCache.BlankKeepsGenuine | services/api/internal/handler/query/query.go:141-175 | The same for one key, from any moment when nothing is cached or on its way under it. |
| ContextCache.HitEqualsMiss | services/api/internal/handler/contexturl/context.go:142-192 | If, since such a moment, the repository's name and the tree stored for the commit have not changed and requests for the repository used its own snapshots, a hit is what a miss would produce. |
| ContextCache.HitsExactlyWhen | services/api/internal/handler/query/query.go:127-175 | From a moment when a key is blank, and with the name and the trees of the commit unchanged, a hit can return a document if and only if it is the rendering of a snapshot of the commit stored for some repository. |
| ContextCache.HitCanDifferExactlyWhen | services/api/internal/handler/query/query.go:127-175 | So a hit can differ from what a miss would produce if and only if some stored snapshot of the same commit hash renders differently under the repository's name. |
| ContextCache.ForeignSnapshotIsCached | services/api/internal/handler/query/query.go:127-146 | Whatever else is in flight, a query that names another repository's snapshot with the same commit hash caches that repository's tree here. |
| ContextCache.KeyInjective | services/api/internal/cache/contextcache/contextcache.go:15-17 | Cache keys of different repositories or commits differ, repository ids having no colon. |
| ContextCache.InMemoryCache.GetOrAssemble | services/api/internal/handler/query/query.go:141-175 | A hit returns the entry; a miss returns and caches the whole document if the tree and every blob can be read, and otherwise caches nothing. |
| ContextCache.InMemoryCache.Serve | services/api/internal/handler/contexturl/context.go:142-192 | The client receives a prefix; the cache is filled exactly when the client got the whole document without an error. |

## Left out

- Sessions.AccessBoundedBySession: has the extra term for the time between reading the session and issuing the token, because the handler reads the clock again; with one reading the term is zero.
- OrgRaces.OwnerSurvives: deleting an organisation is not one of its steps, nor of those in AuthRaces.
- WebhookDelivery.BackoffDoubles: the clock is read once per result, where recordFailure reads it twice; the second reading can only lengthen the wait.
- WebhookDelivery.Dispatcher.Dispatch: the payload and its signature are not modelled.
- WebhookDelivery.SentAtMostFiveTimes: a result that could not be written allows one more send; several dispatchers at once are not modelled.
- RateLimit.Limiter.Check: the pipeline is atomic, Redis and the server share a clock, stamps stay below 2^53 so that scores are exact, and an error from Redis (where the middleware lets the request through) is not modelled.
- JobService.HandlePush: enqueueing to Cloud Tasks after the commit is not modelled, nor that a queued job is eventually run; the watchdog only touches running jobs, although a comment in job.go relies on it for queued ones.
- Assembly.Assemble: works on characters where Go works on bytes, which matters only for commit hashes outside ASCII; flushing is not modelled.
- ContextCache.InMemoryCache.Serve: the response writer and the in-memory copy behind io.MultiWriter are one stream; the cache is filled before the handler returns, while in the state machine the fill is a later step of its own.
- ContextCache.HitEqualsMiss: expiry of Redis entries is an eviction at any time; a repository's organisation, which is part of the storage path, does not change.
- Pagination.ListJobs: reading and writing RFC 3339 timestamps is taken to be exact.
- Invites.InviteStore.Accept: an invite and its token hash are one key; hashing and token generation are not modelled.
- JobToken.AcceptedExactlyWhen: HMAC is any function of key and message; constant-time comparison is not modelled.
- The executor's order of callbacks: the lifecycle allows Start and Complete in any order and number, which covers it.
- MarkJobSuperseded and the cancelled status: no code path in the model writes them, though both count as finished.
- HTTP decoding, validation, routing, logging, audit records, authentication and visibility checks: plumbing around the modelled steps.
- GitHub, object storage, the AI providers, git and the analysis process: their outcomes are parameters.
- The circuit breaker, encryption, JWT signing, password and TOTP checks: library code that is not part of this model.
- The auth service's rate limiter: the same algorithm as the modelled one.
- Teams, profiles, admin, keys, context tokens and audit listing: single-query handlers with only easy claims.
- Account deletion and cascades other than deleting an organisation: not part of this model.
