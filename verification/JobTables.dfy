/**
 The `jobs` and `snapshots` tables, and what each SQL statement of the job store does to them.

 Times are microseconds. Every timestamp a statement writes with SQL `now()` is a parameter:
 in PostgreSQL it is the time at which the enclosing transaction began.
 */
module JobTables {
  import opened Wrappers

  type JobId = nat

  datatype JobStatus = Queued | Running | Succeeded | Failed | Cancelled | Superseded {
    predicate IsTerminal() {
      Succeeded? || Failed? || Cancelled? || Superseded?
    }

    /** How many status changes the job may still make. */
    function Rank(): nat {
      if Queued? then 2 else if Running? then 1 else 0
    }
  }

  /** A branch of a registered repository. */
  datatype Branch = Branch(repo: string, name: string)

  datatype Job = Job(
    on: Branch, sha: string, delivery: Option<string>, status: JobStatus, error: Option<string>,
    createdAt: int, startedAt: Option<int>, finishedAt: Option<int>)

  type Jobs = map<JobId, Job>

  /** The unique index on snapshots. */
  datatype SnapshotKey = SnapshotKey(on: Branch, sha: string)

  /** `job` is NULL for a snapshot uploaded by the command-line client. */
  datatype Snapshot = Snapshot(job: Option<JobId>, path: string, version: int, zigzag: string, size: int)

  datatype Tables = Tables(jobs: Jobs, snapshots: map<SnapshotKey, Snapshot>)

  const TIMEOUT_MICROS: int := 20 * 60 * 1_000_000

  predicate IsQueued(jobs: Jobs, id: JobId) {
    id in jobs && jobs[id].status == Queued
  }

  predicate IsQueuedOn(jobs: Jobs, b: Branch, id: JobId) {
    IsQueued(jobs, id) && jobs[id].on == b
  }

  ghost predicate NoneQueuedOn(jobs: Jobs, b: Branch) {
    forall id :: !IsQueuedOn(jobs, b, id)
  }

  /** The first queued row in the listing that GetActiveJobsForBranch orders by created_at. */
  ghost predicate IsFirstQueuedOn(jobs: Jobs, b: Branch, id: JobId) {
    && IsQueuedOn(jobs, b, id)
    && forall o :: IsQueuedOn(jobs, b, o) ==> jobs[id].createdAt <= jobs[o].createdAt
  }

  ghost predicate DeliveryTaken(jobs: Jobs, delivery: string) {
    delivery != "" && exists id :: id in jobs && jobs[id].delivery == Some(delivery)
  }

  /** CreateJob: a queued row; an empty delivery id is stored as NULL. */
  function NewJob(b: Branch, sha: string, delivery: string, now: int): Job {
    Job(b, sha, if delivery == "" then None else Some(delivery), Queued, None, now, None, None)
  }

  /** UpdateJobCommitSHA: guarded, so a row that has left the queue keeps its sha. */
  function WithSha(jobs: Jobs, id: JobId, sha: string): (r: Jobs)
    ensures r.Keys == jobs.Keys
    ensures forall o :: o in jobs ==> r[o].(sha := jobs[o].sha) == jobs[o]
    ensures forall o :: o in jobs && jobs[o].status != Queued ==> r[o] == jobs[o]
  {
    if IsQueued(jobs, id) then jobs[id := jobs[id].(sha := sha)] else jobs
  }

  /** ClaimJob takes the oldest queued row that no other transaction has locked. */
  ghost predicate IsClaimable(jobs: Jobs, locked: set<JobId>, id: JobId) {
    && IsQueued(jobs, id) && id !in locked
    && forall o :: IsQueued(jobs, o) && o !in locked ==> jobs[id].createdAt <= jobs[o].createdAt
  }

  function Claimed(j: Job, now: int): Job {
    j.(status := Running, startedAt := Some(now))
  }

  /** UpdateJobStatus: no guard on the current status. */
  function WithStatus(j: Job, status: JobStatus, error: Option<string>, now: int): Job {
    j.(status := status, error := error,
       startedAt := if status == Running then Some(now) else j.startedAt,
       finishedAt := if status.IsTerminal() then Some(now) else j.finishedAt)
  }

  /** The WHERE clause of TimeoutRunningJobs; a NULL started_at never satisfies it. */
  predicate IsOverdue(j: Job, now: int) {
    j.status == Running && j.startedAt.Some? && j.startedAt.value < now - TIMEOUT_MICROS
  }

  function TimedOut(j: Job, now: int): Job {
    if IsOverdue(j, now) then j.(status := Failed, error := Some("Job timed out"), finishedAt := Some(now)) else j
  }

  function TimeoutAll(jobs: Jobs, now: int): (r: Jobs)
    ensures r.Keys == jobs.Keys
    ensures forall id :: id in jobs ==> r[id] == TimedOut(jobs[id], now)
  {
    map id | id in jobs :: TimedOut(jobs[id], now)
  }

  datatype StartReply = NoSuchJob | Conflict(status: JobStatus) | Proceed(sha: string, on: Branch)

  /** Start, under the row lock: the reply and the new row. */
  function StartReplyOf(jobs: Jobs, id: JobId): StartReply {
    if id !in jobs then NoSuchJob
    else if jobs[id].status.IsTerminal() then Conflict(jobs[id].status)
    else Proceed(jobs[id].sha, jobs[id].on)
  }

  function StartJobs(jobs: Jobs, id: JobId, now: int): Jobs {
    if IsQueued(jobs, id) then jobs[id := WithStatus(jobs[id], Running, None, now)] else jobs
  }

  datatype CompleteRequest = CompleteRequest(
    succeeded: bool, error: string, path: string, zigzag: string, size: int)

  datatype CompleteReply = UnknownJob | AlreadyTerminal(was: JobStatus) | Recorded(now: JobStatus) | InsertFailed

  function SnapshotKeyOf(j: Job): SnapshotKey {
    SnapshotKey(j.on, j.sha)
  }

  /** Complete, under the row lock. A duplicate snapshot key rolls the whole transaction back. */
  function CompleteReplyOf(t: Tables, id: JobId, req: CompleteRequest): CompleteReply {
    if id !in t.jobs then UnknownJob
    else if t.jobs[id].status.IsTerminal() then AlreadyTerminal(t.jobs[id].status)
    else if !req.succeeded then Recorded(Failed)
    else if SnapshotKeyOf(t.jobs[id]) in t.snapshots then InsertFailed
    else Recorded(Succeeded)
  }

  function CompleteTables(t: Tables, id: JobId, req: CompleteRequest, now: int): Tables {
    var reply := CompleteReplyOf(t, id, req);
    if !reply.Recorded? then t
    else
      var j := t.jobs[id];
      var error := if req.error == "" then None else Some(req.error);
      Tables(t.jobs[id := WithStatus(j, reply.now, error, now)],
             if reply.now == Succeeded
             then t.snapshots[SnapshotKeyOf(j) := Snapshot(Some(id), req.path, 1, req.zigzag, req.size)]
             else t.snapshots)
  }

  /** InsertCLISnapshot: an upsert that leaves job_id alone. */
  function UploadSnapshots(snapshots: map<SnapshotKey, Snapshot>, key: SnapshotKey,
                           path: string, zigzag: string, size: int)
    : map<SnapshotKey, Snapshot>
  {
    snapshots[key := Snapshot(if key in snapshots then snapshots[key].job else None, path, 2, zigzag, size)]
  }
}
