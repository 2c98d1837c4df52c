/**
 The job lifecycle as a transition system: webhook pushes, poller claims, worker callbacks and the
 watchdog all act on one `jobs` table.

 A push is split at the points where other actors can run: begin, advisory lock, read, write, commit.
 Its writes are invisible to the others until it commits, but a row it has updated is locked until then.
 Start, Complete, the claim, the watchdog and the poller's failure write are one step each.
 */
module JobLifecycle {
  import opened Wrappers
  import opened JobTables

  type PushId = nat

  /** Where an in-flight push is. `Updating(id, false)` is an update that matched no row. */
  datatype Stage =
    | Waiting
    | Locked
    | Seen(target: Option<JobId>)
    | Updating(id: JobId, hit: bool)
    | Creating(id: JobId)

  datatype Push = Push(on: Branch, sha: string, delivery: string, began: int, stage: Stage)

  /** The transactions of in-flight pushes and the advisory locks they hold. */
  datatype Transactions = Transactions(locks: map<int, PushId>, pushes: map<PushId, Push>)

  /**
   What has happened so far; no step reads it. The successful Start replies, the jobs for which a
   snapshot was inserted, the jobs the watchdog failed, the claims in order, and per branch the sha of
   the last push that was accepted, the sha of the last one whose write reached a row, and the job
   created last.
   */
  datatype Log = Log(
    starts: seq<(JobId, string)>,
    inserts: seq<JobId>,
    timedOut: set<JobId>,
    claims: seq<JobId>,
    accepted: map<Branch, string>,
    effective: map<Branch, string>,
    newest: map<Branch, JobId>)

  /** `claiming` holds the jobs that a poller has claimed and not yet handed to a worker. */
  datatype State = State(t: Tables, tx: Transactions, claiming: set<JobId>, log: Log)

  /** The steps that are one statement or one transaction under a row lock. */
  datatype Action =
    | Claim(id: JobId, at: int)
    | PollerFail(id: JobId, at: int)
    | Start(id: JobId, at: int)
    | Complete(id: JobId, req: CompleteRequest, at: int)
    | Timeout(at: int)
    | Upload(key: SnapshotKey, path: string, zigzag: string, size: int)

  datatype Event =
    | Begin(p: PushId, on: Branch, sha: string, delivery: string, at: int)
    | Lock(p: PushId)
    | Read(p: PushId, target: Option<JobId>)
    | Write(p: PushId, row: JobId)
    | Commit(p: PushId)
    | Abort(p: PushId)
    | Dispatch(id: JobId)
    | Act(act: Action)

  /** pg_advisory_xact_lock on the hash of "repo:branch"; `hash` may map two branches to one key. */
  function LockKey(hash: string -> int, b: Branch): int {
    hash(b.repo + ":" + b.name)
  }

  /** The rows that in-flight pushes have updated and not yet committed. */
  function RowLocks(pushes: map<PushId, Push>): set<JobId> {
    set p | p in pushes && pushes[p].stage.Updating? && pushes[p].stage.hit :: pushes[p].stage.id
  }

  ghost predicate Init(s: State) {
    && s.t == Tables(map[], map[]) && s.tx.locks == map[] && s.tx.pushes == map[] && s.claiming == {}
    && s.log == Log([], [], {}, [], map[], map[], map[])
  }

  // -- Claims, callbacks, the watchdog and uploads --

  /** Every action waits for a row lock on its row, except the claim, which skips locked rows. */
  ghost predicate CanAct(jobs: Jobs, locked: set<JobId>, claiming: set<JobId>, a: Action) {
    match a
    case Claim(id, _) => IsClaimable(jobs, locked, id)
    case PollerFail(id, _) => id in claiming && id in jobs && id !in locked
    case Start(id, _) => id !in locked
    case Complete(id, _, _) => id !in locked
    case Timeout(_) => true
    case Upload(_, _, _, _) => true
  }

  function ActOn(t: Tables, a: Action): Tables
    requires a.Claim? || a.PollerFail? ==> a.id in t.jobs
  {
    match a
    case Claim(id, at) => t.(jobs := t.jobs[id := Claimed(t.jobs[id], at)])
    case PollerFail(id, at) =>
      t.(jobs := t.jobs[id := WithStatus(t.jobs[id], Failed, Some("repo not found for job"), at)])
    case Start(id, at) => t.(jobs := StartJobs(t.jobs, id, at))
    case Complete(id, req, at) => CompleteTables(t, id, req, at)
    case Timeout(at) => t.(jobs := TimeoutAll(t.jobs, at))
    case Upload(key, path, zigzag, size) => t.(snapshots := UploadSnapshots(t.snapshots, key, path, zigzag, size))
  }

  function Record(log: Log, t: Tables, a: Action): Log {
    match a
    case Claim(id, _) => log.(claims := log.claims + [id])
    case PollerFail(_, _) => log
    case Start(id, _) =>
      var reply := StartReplyOf(t.jobs, id);
      if reply.Proceed? then log.(starts := log.starts + [(id, reply.sha)]) else log
    case Complete(id, req, _) =>
      if CompleteReplyOf(t, id, req) == Recorded(Succeeded) then log.(inserts := log.inserts + [id]) else log
    case Timeout(at) => log.(timedOut := log.timedOut + set id | id in t.jobs && IsOverdue(t.jobs[id], at))
    case Upload(_, _, _, _) => log
  }

  function Claiming(claiming: set<JobId>, a: Action): set<JobId> {
    match a
    case Claim(id, _) => claiming + {id}
    case PollerFail(id, _) => claiming - {id}
    case _ => claiming
  }

  // -- Pushes --

  /** An INSERT waits for an uncommitted INSERT of the same delivery id; new row ids are not in use. */
  ghost predicate CanInsert(s: State, push: Push, row: JobId) {
    && row !in s.t.jobs
    && forall q :: q in s.tx.pushes && s.tx.pushes[q].stage.Creating? ==>
         && s.tx.pushes[q].stage.id != row
         && (push.delivery == "" || s.tx.pushes[q].delivery != push.delivery)
  }

  /** End of a push's transaction: its advisory lock, if held, is released. */
  function Finish(hash: string -> int, tx: Transactions, p: PushId): Transactions
    requires p in tx.pushes
  {
    var locks := if tx.pushes[p].stage.Waiting? then tx.locks else tx.locks - {LockKey(hash, tx.pushes[p].on)};
    tx.(locks := locks, pushes := tx.pushes - {p})
  }

  function MoveTo(tx: Transactions, p: PushId, stage: Stage): Transactions
    requires p in tx.pushes
  {
    tx.(pushes := tx.pushes[p := tx.pushes[p].(stage := stage)])
  }

  ghost function Written(hash: string -> int, s: State, p: PushId, row: JobId): Transactions
    requires p in s.tx.pushes && s.tx.pushes[p].stage.Seen?
  {
    var push := s.tx.pushes[p];
    match push.stage.target
    case Some(id) => MoveTo(s.tx, p, Updating(id, IsQueued(s.t.jobs, id)))
    case None =>
      if DeliveryTaken(s.t.jobs, push.delivery) then Finish(hash, s.tx, p) else MoveTo(s.tx, p, Creating(row))
  }

  predicate CanCommit(push: Push) {
    push.stage.Updating? || push.stage.Creating?
  }

  function CommitJobs(jobs: Jobs, push: Push): Jobs
    requires CanCommit(push)
  {
    match push.stage
    case Updating(id, hit) => if hit then WithSha(jobs, id, push.sha) else jobs
    case Creating(id) => jobs[id := NewJob(push.on, push.sha, push.delivery, push.began)]
  }

  function CommitLog(log: Log, push: Push): Log
    requires CanCommit(push)
  {
    var log := log.(accepted := log.accepted[push.on := push.sha]);
    match push.stage
    case Updating(_, hit) => if hit then log.(effective := log.effective[push.on := push.sha]) else log
    case Creating(id) =>
      log.(effective := log.effective[push.on := push.sha], newest := log.newest[push.on := id])
  }

  // -- The whole system --

  ghost predicate Enabled(hash: string -> int, s: State, e: Event) {
    match e
    case Begin(p, _, _, _, _) => p !in s.tx.pushes
    case Lock(p) =>
      p in s.tx.pushes && s.tx.pushes[p].stage.Waiting? && LockKey(hash, s.tx.pushes[p].on) !in s.tx.locks
    case Read(p, target) =>
      && p in s.tx.pushes && s.tx.pushes[p].stage.Locked?
      && (if target.Some? then IsFirstQueuedOn(s.t.jobs, s.tx.pushes[p].on, target.value)
          else NoneQueuedOn(s.t.jobs, s.tx.pushes[p].on))
    case Write(p, row) =>
      && p in s.tx.pushes && s.tx.pushes[p].stage.Seen?
      && if s.tx.pushes[p].stage.target.Some? then s.tx.pushes[p].stage.target.value !in RowLocks(s.tx.pushes)
         else CanInsert(s, s.tx.pushes[p], row)
    case Commit(p) => p in s.tx.pushes && CanCommit(s.tx.pushes[p])
    case Abort(p) => p in s.tx.pushes
    case Dispatch(id) => id in s.claiming
    case Act(a) => CanAct(s.t.jobs, RowLocks(s.tx.pushes), s.claiming, a)
  }

  ghost function Apply(hash: string -> int, s: State, e: Event): (s': State)
    requires Enabled(hash, s, e)
    ensures e.Act? || e.Commit? || (s'.t == s.t && s'.log == s.log)
    ensures e.Act? ==> s'.tx == s.tx
  {
    match e
    case Begin(p, b, sha, delivery, at) =>
      s.(tx := s.tx.(pushes := s.tx.pushes[p := Push(b, sha, delivery, at, Waiting)]))
    case Lock(p) =>
      s.(tx := MoveTo(s.tx, p, Locked).(locks := s.tx.locks[LockKey(hash, s.tx.pushes[p].on) := p]))
    case Read(p, target) => s.(tx := MoveTo(s.tx, p, Seen(target)))
    case Write(p, row) => s.(tx := Written(hash, s, p, row))
    case Commit(p) =>
      State(s.t.(jobs := CommitJobs(s.t.jobs, s.tx.pushes[p])), Finish(hash, s.tx, p), s.claiming,
            CommitLog(s.log, s.tx.pushes[p]))
    case Abort(p) => s.(tx := Finish(hash, s.tx, p))
    case Dispatch(id) => s.(claiming := s.claiming - {id})
    case Act(a) => State(ActOn(s.t, a), s.tx, Claiming(s.claiming, a), Record(s.log, s.t, a))
  }

  /** One step of the system. */
  ghost predicate Next(hash: string -> int, s: State, e: Event, s': State) {
    Enabled(hash, s, e) && s' == Apply(hash, s, e)
  }

  /** A run: any interleaving of enabled steps from an empty database. */
  ghost predicate IsRun(hash: string -> int, run: seq<State>, events: seq<Event>) {
    && |run| == |events| + 1
    && Init(run[0])
    && forall i :: 0 <= i < |events| ==> Next(hash, run[i], events[i], run[i + 1])
  }
}
