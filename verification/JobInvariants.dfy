/** What every step of the job lifecycle keeps about locks, in-flight pushes and the queue. */
module JobInvariants {
  import opened JobTables
  import opened JobLifecycle

  /** Every push past its lock step is the one holder of its branch's advisory lock. */
  ghost predicate HoldsLocks(hash: string -> int, tx: Transactions) {
    forall p :: p in tx.pushes && !tx.pushes[p].stage.Waiting? ==>
      LockKey(hash, tx.pushes[p].on) in tx.locks && tx.locks[LockKey(hash, tx.pushes[p].on)] == p
  }

  /** What a push has learnt about the table stays true until it commits. */
  ghost predicate StageOk(jobs: Jobs, push: Push) {
    match push.stage
    case Waiting => true
    case Locked => true
    case Seen(None) => NoneQueuedOn(jobs, push.on)
    case Creating(id) => NoneQueuedOn(jobs, push.on) && id !in jobs
    case Seen(Some(id)) => id in jobs && jobs[id].on == push.on
    case Updating(id, hit) => id in jobs && jobs[id].on == push.on && (hit ==> jobs[id].status == Queued)
  }

  ghost predicate StagesOk(jobs: Jobs, pushes: map<PushId, Push>) {
    && (forall p :: p in pushes ==> StageOk(jobs, pushes[p]))
    && (forall p, q :: p in pushes && q in pushes && p != q
                       && pushes[p].stage.Creating? && pushes[q].stage.Creating? ==>
          pushes[p].stage.id != pushes[q].stage.id)
  }

  /** The only job that can be queued on a branch is the one created last. */
  ghost predicate QueuedIsNewest(jobs: Jobs, newest: map<Branch, JobId>) {
    forall id :: IsQueued(jobs, id) ==> jobs[id].on in newest && newest[jobs[id].on] == id
  }

  /** The job created last carries the sha of the last push whose write reached a row. */
  ghost predicate NewestIsEffective(jobs: Jobs, log: Log) {
    && log.effective.Keys == log.newest.Keys
    && forall b :: b in log.newest ==>
         log.newest[b] in jobs && jobs[log.newest[b]].on == b && jobs[log.newest[b]].sha == log.effective[b]
  }

  ghost predicate QueueOk(jobs: Jobs, log: Log) {
    QueuedIsNewest(jobs, log.newest) && NewestIsEffective(jobs, log)
  }

  ghost predicate CoreInv(hash: string -> int, s: State) {
    HoldsLocks(hash, s.tx) && StagesOk(s.t.jobs, s.tx.pushes) && QueueOk(s.t.jobs, s.log)
  }

  // -- Actions --

  /**
   What actions do to the table: rows keep their identity, and a row that changes was not locked and ends
   up outside the queue.
   */
  ghost predicate Settles(jobs: Jobs, jobs': Jobs, locked: set<JobId>) {
    && jobs'.Keys == jobs.Keys
    && forall id :: id in jobs && jobs'[id] != jobs[id] ==> id !in locked && SettlesRow(jobs[id], jobs'[id])
  }

  ghost predicate SettlesRow(j: Job, j': Job) {
    && j'.status != Queued && (j.status.IsTerminal() ==> j'.status.IsTerminal())
    && j'.on == j.on && j'.sha == j.sha && j'.delivery == j.delivery && j'.createdAt == j.createdAt
  }

  lemma LockedRowsAreQueued(jobs: Jobs, pushes: map<PushId, Push>, id: JobId)
    requires StagesOk(jobs, pushes) && id in RowLocks(pushes)
    ensures IsQueued(jobs, id)
  {
    var p :| p in pushes && pushes[p].stage.Updating? && pushes[p].stage.hit && pushes[p].stage.id == id;
    assert StageOk(jobs, pushes[p]);
  }

  lemma ActionSettles(t: Tables, locked: set<JobId>, claiming: set<JobId>, a: Action)
    requires CanAct(t.jobs, locked, claiming, a)
    requires forall id :: id in locked ==> IsQueued(t.jobs, id)
    ensures Settles(t.jobs, ActOn(t, a).jobs, locked)
  {
    match a
    case Claim(id, at) =>
    case PollerFail(id, at) =>
    case Start(id, at) =>
    case Complete(id, req, at) =>
    case Timeout(at) =>
      assert ActOn(t, a).jobs == TimeoutAll(t.jobs, at);
    case Upload(key, path, zigzag, size) =>
  }

  lemma SettlingKeepsStage(jobs: Jobs, jobs': Jobs, pushes: map<PushId, Push>, p: PushId)
    requires StagesOk(jobs, pushes) && Settles(jobs, jobs', RowLocks(pushes)) && p in pushes
    ensures StageOk(jobs', pushes[p])
  {
    assert StageOk(jobs, pushes[p]);
    var stage := pushes[p].stage;
    if (stage.Seen? && stage.target.None?) || stage.Creating? {
      forall id ensures !IsQueuedOn(jobs', pushes[p].on, id) {
        assert !IsQueuedOn(jobs, pushes[p].on, id);
      }
    } else if stage.Updating? && stage.hit {
      assert stage.id in RowLocks(pushes);
    }
  }

  lemma SettlingKeepsQueue(jobs: Jobs, jobs': Jobs, locked: set<JobId>, log: Log)
    requires QueueOk(jobs, log) && Settles(jobs, jobs', locked)
    ensures QueueOk(jobs', log)
  {
    forall id | IsQueued(jobs', id) ensures jobs'[id].on in log.newest && log.newest[jobs'[id].on] == id {
      assert IsQueued(jobs, id);
    }
  }

  lemma RecordKeepsQueueLog(log: Log, t: Tables, a: Action)
    ensures Record(log, t, a).newest == log.newest && Record(log, t, a).effective == log.effective
    ensures Record(log, t, a).accepted == log.accepted
  {
  }

  lemma ActionKeepsCore(hash: string -> int, s: State, a: Action)
    requires CoreInv(hash, s) && Enabled(hash, s, Act(a))
    ensures CoreInv(hash, Apply(hash, s, Act(a)))
    ensures Settles(s.t.jobs, ActOn(s.t, a).jobs, RowLocks(s.tx.pushes))
  {
    var locked := RowLocks(s.tx.pushes);
    forall id | id in locked ensures IsQueued(s.t.jobs, id) {
      LockedRowsAreQueued(s.t.jobs, s.tx.pushes, id);
    }
    ActionSettles(s.t, locked, s.claiming, a);
    var jobs' := ActOn(s.t, a).jobs;
    forall p | p in s.tx.pushes ensures StageOk(jobs', s.tx.pushes[p]) {
      SettlingKeepsStage(s.t.jobs, jobs', s.tx.pushes, p);
    }
    SettlingKeepsQueue(s.t.jobs, jobs', locked, s.log);
    RecordKeepsQueueLog(s.log, s.t, a);
  }

  // -- Pushes --

  /** Two pushes past their lock steps are never on the same branch, whatever the hash does. */
  lemma OneHolderPerBranch(hash: string -> int, tx: Transactions, p: PushId, q: PushId)
    requires HoldsLocks(hash, tx) && p in tx.pushes && q in tx.pushes
    requires !tx.pushes[p].stage.Waiting? && !tx.pushes[q].stage.Waiting? && tx.pushes[p].on == tx.pushes[q].on
    ensures p == q
  {
  }

  lemma FinishKeepsLocks(hash: string -> int, tx: Transactions, p: PushId)
    requires HoldsLocks(hash, tx) && p in tx.pushes
    ensures HoldsLocks(hash, Finish(hash, tx, p))
  {
    var tx' := Finish(hash, tx, p);
    forall q | q in tx'.pushes && !tx'.pushes[q].stage.Waiting?
      ensures LockKey(hash, tx'.pushes[q].on) in tx'.locks && tx'.locks[LockKey(hash, tx'.pushes[q].on)] == q
    {
      assert tx.locks[LockKey(hash, tx.pushes[q].on)] == q;
    }
  }

  lemma FinishKeepsStages(hash: string -> int, jobs: Jobs, tx: Transactions, p: PushId)
    requires StagesOk(jobs, tx.pushes) && p in tx.pushes
    ensures StagesOk(jobs, Finish(hash, tx, p).pushes)
  {
  }

  /** Any change of one push's stage that is justified by the table. */
  lemma MoveKeepsStages(jobs: Jobs, tx: Transactions, p: PushId, stage: Stage)
    requires StagesOk(jobs, tx.pushes) && p in tx.pushes && StageOk(jobs, tx.pushes[p].(stage := stage))
    requires stage.Creating? ==>
               forall q :: q in tx.pushes && tx.pushes[q].stage.Creating? ==> tx.pushes[q].stage.id != stage.id
    ensures StagesOk(jobs, MoveTo(tx, p, stage).pushes)
  {
    var pushes' := MoveTo(tx, p, stage).pushes;
    forall q | q in pushes' ensures StageOk(jobs, pushes'[q]) {
      assert q != p ==> StageOk(jobs, tx.pushes[q]);
    }
  }

  lemma MoveKeepsLocks(hash: string -> int, tx: Transactions, p: PushId, stage: Stage)
    requires HoldsLocks(hash, tx) && p in tx.pushes && !tx.pushes[p].stage.Waiting?
    ensures HoldsLocks(hash, MoveTo(tx, p, stage))
  {
    var tx' := MoveTo(tx, p, stage);
    forall q | q in tx'.pushes && !tx'.pushes[q].stage.Waiting?
      ensures LockKey(hash, tx'.pushes[q].on) in tx'.locks && tx'.locks[LockKey(hash, tx'.pushes[q].on)] == q
    {
      assert tx.locks[LockKey(hash, tx.pushes[q].on)] == q;
    }
  }

  lemma BeginKeepsCore(hash: string -> int, s: State, e: Event)
    requires CoreInv(hash, s) && e.Begin? && Enabled(hash, s, e)
    ensures CoreInv(hash, Apply(hash, s, e))
  {
    var pushes' := Apply(hash, s, e).tx.pushes;
    forall q | q in pushes' ensures StageOk(s.t.jobs, pushes'[q]) {
      assert q != e.p ==> StageOk(s.t.jobs, s.tx.pushes[q]);
    }
  }

  lemma LockKeepsCore(hash: string -> int, s: State, p: PushId)
    requires CoreInv(hash, s) && Enabled(hash, s, Lock(p))
    ensures CoreInv(hash, Apply(hash, s, Lock(p)))
  {
    MoveKeepsStages(s.t.jobs, s.tx, p, Locked);
    var tx' := Apply(hash, s, Lock(p)).tx;
    forall q | q in tx'.pushes && !tx'.pushes[q].stage.Waiting?
      ensures LockKey(hash, tx'.pushes[q].on) in tx'.locks && tx'.locks[LockKey(hash, tx'.pushes[q].on)] == q
    {
      assert q != p ==> s.tx.locks[LockKey(hash, s.tx.pushes[q].on)] == q;
    }
  }

  lemma WriteKeepsCore(hash: string -> int, s: State, p: PushId, row: JobId)
    requires CoreInv(hash, s) && Enabled(hash, s, Write(p, row))
    ensures CoreInv(hash, Apply(hash, s, Write(p, row)))
  {
    var push := s.tx.pushes[p];
    assert StageOk(s.t.jobs, push);
    match push.stage.target
    case Some(id) =>
      MoveKeepsStages(s.t.jobs, s.tx, p, Updating(id, IsQueued(s.t.jobs, id)));
      MoveKeepsLocks(hash, s.tx, p, Updating(id, IsQueued(s.t.jobs, id)));
    case None =>
      FinishKeepsLocks(hash, s.tx, p);
      FinishKeepsStages(hash, s.t.jobs, s.tx, p);
      MoveKeepsStages(s.t.jobs, s.tx, p, Creating(row));
      MoveKeepsLocks(hash, s.tx, p, Creating(row));
  }

  lemma UpdateCommitKeepsQueue(jobs: Jobs, log: Log, push: Push)
    requires QueueOk(jobs, log) && push.stage.Updating? && StageOk(jobs, push)
    ensures QueueOk(CommitJobs(jobs, push), CommitLog(log, push))
  {
    var jobs' := CommitJobs(jobs, push);
    forall id ensures IsQueued(jobs', id) == IsQueued(jobs, id) {
    }
    assert push.stage.hit ==> IsQueued(jobs, push.stage.id);
  }

  lemma CreateCommitKeepsQueue(jobs: Jobs, log: Log, push: Push)
    requires QueueOk(jobs, log) && push.stage.Creating? && StageOk(jobs, push)
    ensures QueueOk(CommitJobs(jobs, push), CommitLog(log, push))
  {
    var jobs', log' := CommitJobs(jobs, push), CommitLog(log, push);
    forall id | IsQueued(jobs', id) ensures jobs'[id].on in log'.newest && log'.newest[jobs'[id].on] == id {
      if id != push.stage.id {
        assert IsQueued(jobs, id) && !IsQueuedOn(jobs, push.on, id);
      }
    }
  }

  lemma CommitKeepsStage(hash: string -> int, s: State, p: PushId, q: PushId)
    requires CoreInv(hash, s) && Enabled(hash, s, Commit(p)) && q in s.tx.pushes && q != p
    ensures StageOk(CommitJobs(s.t.jobs, s.tx.pushes[p]), s.tx.pushes[q])
  {
    var jobs, push, other := s.t.jobs, s.tx.pushes[p], s.tx.pushes[q];
    assert StageOk(jobs, push) && StageOk(jobs, other);
    var jobs' := CommitJobs(jobs, push);
    if push.stage.Updating? {
      forall id ensures IsQueuedOn(jobs', other.on, id) == IsQueuedOn(jobs, other.on, id) {
      }
    } else if !other.stage.Waiting? {
      if other.on == push.on {
        OneHolderPerBranch(hash, s.tx, p, q);
      }
      forall id ensures IsQueuedOn(jobs', other.on, id) == IsQueuedOn(jobs, other.on, id) {
      }
    }
  }

  lemma CommitKeepsCore(hash: string -> int, s: State, p: PushId)
    requires CoreInv(hash, s) && Enabled(hash, s, Commit(p))
    ensures CoreInv(hash, Apply(hash, s, Commit(p)))
  {
    assert StageOk(s.t.jobs, s.tx.pushes[p]);
    FinishKeepsLocks(hash, s.tx, p);
    var s' := Apply(hash, s, Commit(p));
    forall q | q in s'.tx.pushes ensures StageOk(s'.t.jobs, s'.tx.pushes[q]) {
      CommitKeepsStage(hash, s, p, q);
    }
    if s.tx.pushes[p].stage.Updating? {
      UpdateCommitKeepsQueue(s.t.jobs, s.log, s.tx.pushes[p]);
    } else {
      CreateCommitKeepsQueue(s.t.jobs, s.log, s.tx.pushes[p]);
    }
  }

  lemma StepKeepsCore(hash: string -> int, s: State, e: Event)
    requires CoreInv(hash, s) && Enabled(hash, s, e)
    ensures CoreInv(hash, Apply(hash, s, e))
  {
    match e
    case Begin(_, _, _, _, _) => BeginKeepsCore(hash, s, e);
    case Lock(p) => LockKeepsCore(hash, s, p);
    case Read(p, target) =>
      MoveKeepsStages(s.t.jobs, s.tx, p, Seen(target));
      MoveKeepsLocks(hash, s.tx, p, Seen(target));
    case Write(p, row) => WriteKeepsCore(hash, s, p, row);
    case Commit(p) => CommitKeepsCore(hash, s, p);
    case Abort(p) =>
      FinishKeepsLocks(hash, s.tx, p);
      FinishKeepsStages(hash, s.t.jobs, s.tx, p);
    case Dispatch(_) =>
    case Act(a) => ActionKeepsCore(hash, s, a);
  }
}
