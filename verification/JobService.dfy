/**
 The job store and its callers as they are written: rows updated in place, statement by statement.
 Every method is specified by the statement functions of JobTables, so that each call is one step of the
 job lifecycle, and an undisturbed HandlePush is the lifecycle's five push steps in a row.
 */
module JobService {
  import opened Wrappers
  import opened Sets
  import opened JobTables
  import opened JobLifecycle
  import opened Paths

  predicate IsActiveOn(j: Job, b: Branch) {
    j.on == b && (j.status == Queued || j.status == Running)
  }

  function CreatedAtIn(jobs: Jobs): JobId -> int {
    id => if id in jobs then jobs[id].createdAt else 0
  }

  /** The result of GetActiveJobsForBranch: every active row of the branch once, oldest first. */
  ghost predicate IsActiveListing(jobs: Jobs, b: Branch, ids: seq<JobId>) {
    && (forall id :: id in ids <==>
          id in jobs && jobs[id].on == b && (jobs[id].status == Queued || jobs[id].status == Running))
    && (forall i, j :: 0 <= i < j < |ids| ==> ids[i] != ids[j])
    && (forall i, j :: 0 <= i < j < |ids| ==>
          ids[i] in jobs && ids[j] in jobs && jobs[ids[i]].createdAt <= jobs[ids[j]].createdAt)
  }

  class JobDatabase {
    var jobs: Jobs
    var snapshots: map<SnapshotKey, Snapshot>

    ghost function View(): Tables
      reads this
    {
      Tables(jobs, snapshots)
    }

    constructor ()
      ensures View() == Tables(map[], map[])
    {
      jobs, snapshots := map[], map[];
    }

    method ClaimJob(now: int) returns (claimed: Option<JobId>)
      modifies this
      ensures claimed.None? <==> forall id :: id in old(jobs) ==> old(jobs)[id].status != Queued
      ensures claimed.None? ==> View() == old(View())
      ensures claimed.Some? ==>
                && claimed.value in old(jobs) && old(jobs)[claimed.value].status == Queued
                && (forall o :: o in old(jobs) && old(jobs)[o].status == Queued ==>
                      old(jobs)[claimed.value].createdAt <= old(jobs)[o].createdAt)
                && jobs == old(jobs)[claimed.value := old(jobs)[claimed.value].(status := Running, startedAt := Some(now))]
      ensures claimed.Some? ==> IsClaimable(old(jobs), {}, claimed.value)
      ensures claimed.Some? ==> View() == ActOn(old(View()), Claim(claimed.value, now))
    {
      var queued := set id | id in jobs && jobs[id].status == Queued;
      assert forall o :: o in jobs && jobs[o].status == Queued ==> o in queued;
      if queued == {} {
        return None;
      }
      var id := Least(queued, CreatedAtIn(jobs));
      jobs := jobs[id := Claimed(jobs[id], now)];
      return Some(id);
    }

    method GetActiveJobsForBranch(b: Branch) returns (ids: seq<JobId>)
      ensures IsActiveListing(jobs, b, ids)
    {
      var active := set id | id in jobs && IsActiveOn(jobs[id], b);
      ghost var rest;
      ids, rest := OrderedQuery(active, CreatedAtIn(jobs), None);
    }

    method UpdateJobCommitSha(id: JobId, sha: string)
      modifies this
      ensures View() == old(View()).(jobs := WithSha(old(jobs), id, sha))
      ensures jobs == if id in old(jobs) && old(jobs)[id].status == Queued
                      then old(jobs)[id := old(jobs)[id].(sha := sha)] else old(jobs)
    {
      if IsQueued(jobs, id) {
        jobs := jobs[id := jobs[id].(sha := sha)];
      }
    }

    /** False when the delivery id is already taken: the unique index rejects the row. */
    method CreateJob(b: Branch, sha: string, delivery: string, row: JobId, now: int) returns (ok: bool)
      requires row !in jobs
      modifies this
      ensures ok <==> delivery == "" || forall id :: id in old(jobs) ==> old(jobs)[id].delivery != Some(delivery)
      ensures snapshots == old(snapshots)
      ensures jobs == if ok
                      then old(jobs)[row := Job(b, sha, if delivery == "" then None else Some(delivery), Queued, None,
                                                now, None, None)]
                      else old(jobs)
    {
      var taken := set id | id in jobs && delivery != "" && jobs[id].delivery == Some(delivery);
      ok := taken == {};
      if ok {
        assert !DeliveryTaken(jobs, delivery) by {
          forall id | id in jobs && delivery != "" ensures jobs[id].delivery != Some(delivery) {
            assert id !in taken;
          }
        }
        jobs := jobs[row := NewJob(b, sha, delivery, now)];
      }
    }

    method UpdateJobStatus(id: JobId, status: JobStatus, error: Option<string>, now: int)
      modifies this
      ensures snapshots == old(snapshots)
      ensures jobs == if id in old(jobs) then old(jobs)[id := WithStatus(old(jobs)[id], status, error, now)] else old(jobs)
    {
      if id in jobs {
        jobs := jobs[id := WithStatus(jobs[id], status, error, now)];
      }
    }

    method Start(id: JobId, now: int) returns (reply: StartReply)
      modifies this
      ensures reply.NoSuchJob? <==> id !in old(jobs)
      ensures reply.Proceed? <==> id in old(jobs) && old(jobs)[id].status in {Queued, Running}
      ensures reply.Conflict? <==> id in old(jobs) && old(jobs)[id].status in {Succeeded, Failed, Cancelled, Superseded}
      ensures reply.Proceed? ==> reply.sha == old(jobs)[id].sha && reply.on == old(jobs)[id].on
      ensures reply.Conflict? ==> reply.status == old(jobs)[id].status
      ensures jobs == if id in old(jobs) && old(jobs)[id].status == Queued
                      then old(jobs)[id := old(jobs)[id].(status := Running, error := None, startedAt := Some(now))]
                      else old(jobs)
      ensures reply == StartReplyOf(old(jobs), id) && View() == ActOn(old(View()), Action.Start(id, now))
    {
      if id !in jobs {
        return NoSuchJob;
      }
      var job := jobs[id];
      if job.status == Running {
        return Proceed(job.sha, job.on);
      }
      if job.status.IsTerminal() {
        return Conflict(job.status);
      }
      UpdateJobStatus(id, Running, None, now);
      return Proceed(job.sha, job.on);
    }

    /** The transaction is rolled back when the snapshot's key is already present. */
    method Complete(id: JobId, req: CompleteRequest, now: int) returns (reply: CompleteReply)
      modifies this
      ensures reply.UnknownJob? <==> id !in old(jobs)
      ensures reply.AlreadyTerminal? <==>
                id in old(jobs) && old(jobs)[id].status in {Succeeded, Failed, Cancelled, Superseded}
      ensures reply.AlreadyTerminal? ==> reply.was == old(jobs)[id].status
      ensures reply.InsertFailed? <==>
                && id in old(jobs) && old(jobs)[id].status in {Queued, Running} && req.succeeded
                && SnapshotKey(old(jobs)[id].on, old(jobs)[id].sha) in old(snapshots)
      ensures !reply.Recorded? ==> jobs == old(jobs) && snapshots == old(snapshots)
      ensures reply.Recorded? ==>
                && id in old(jobs) && old(jobs)[id].status in {Queued, Running}
                && reply.now == (if req.succeeded then Succeeded else Failed)
                && jobs == old(jobs)[id := old(jobs)[id].(status := reply.now, finishedAt := Some(now),
                                                          error := if req.error == "" then None else Some(req.error))]
                && snapshots == if !req.succeeded then old(snapshots)
                                else old(snapshots)[SnapshotKey(old(jobs)[id].on, old(jobs)[id].sha) :=
                                       Snapshot(Some(id), req.path, 1, req.zigzag, req.size)]
      ensures reply == CompleteReplyOf(old(View()), id, req) && View() == ActOn(old(View()), Action.Complete(id, req, now))
    {
      if id !in jobs {
        return UnknownJob;
      }
      var job, before := jobs[id], jobs;
      if job.status.IsTerminal() {
        return AlreadyTerminal(job.status);
      }
      var status := if req.succeeded then Succeeded else Failed;
      UpdateJobStatus(id, status, if req.error == "" then None else Some(req.error), now);
      if status == Succeeded {
        var key := SnapshotKey(job.on, job.sha);
        if key in snapshots {
          jobs := before;
          return InsertFailed;
        }
        snapshots := snapshots[key := Snapshot(Some(id), req.path, 1, req.zigzag, req.size)];
      }
      return Recorded(status);
    }

    method TimeoutRunningJobs(now: int) returns (count: nat)
      modifies this
      ensures View() == ActOn(old(View()), Action.Timeout(now))
      ensures jobs.Keys == old(jobs).Keys && snapshots == old(snapshots)
      ensures forall id :: id in old(jobs) ==>
                jobs[id] == if old(jobs)[id].status == Running && old(jobs)[id].startedAt.Some?
                               && old(jobs)[id].startedAt.value < now - 1_200_000_000
                            then old(jobs)[id].(status := Failed, error := Some("Job timed out"), finishedAt := Some(now))
                            else old(jobs)[id]
      ensures count == |set id | id in old(jobs) && old(jobs)[id].status == Running && old(jobs)[id].startedAt.Some?
                                 && old(jobs)[id].startedAt.value < now - 1_200_000_000|
    {
      var overdue := set id | id in jobs && IsOverdue(jobs[id], now);
      assert overdue == set id | id in jobs && jobs[id].status == Running && jobs[id].startedAt.Some?
                                 && jobs[id].startedAt.value < now - 1_200_000_000;
      jobs := map id | id in jobs ::
        if id in overdue
        then jobs[id].(status := Failed, error := Some("Job timed out"), finishedAt := Some(now))
        else jobs[id];
      return |overdue|;
    }

    /** The poller's claimOne: a job whose repository cannot be loaded is failed by an unguarded write. */
    method ClaimOne(repoFound: bool, now: int, later: int) returns (claimed: Option<JobId>)
      modifies this
      ensures snapshots == old(snapshots)
      ensures claimed.None? ==> jobs == old(jobs)
      ensures claimed.Some? ==>
                && claimed.value in old(jobs) && old(jobs)[claimed.value].status == Queued
                && jobs == old(jobs)[claimed.value :=
                             if repoFound
                             then old(jobs)[claimed.value].(status := Running, startedAt := Some(now))
                             else old(jobs)[claimed.value].(status := Failed, error := Some("repo not found for job"),
                                                            startedAt := Some(now), finishedAt := Some(later))]
      ensures claimed.Some? ==>
                var ran := ActOn(old(View()), Claim(claimed.value, now));
                View() == if repoFound then ran else ActOn(ran, PollerFail(claimed.value, later))
    {
      claimed := ClaimJob(now);
      if claimed.Some? && !repoFound {
        UpdateJobStatus(claimed.value, Failed, Some("repo not found for job"), later);
      }
    }

    /** InsertCLISnapshot: a new row, or an existing one with its job kept. */
    method UploadSnapshot(key: SnapshotKey, path: string, zigzag: string, size: int)
      modifies this
      ensures jobs == old(jobs)
      ensures snapshots == old(snapshots)[key :=
                             Snapshot(if key in old(snapshots) then old(snapshots)[key].job else None, path, 2, zigzag, size)]
      ensures View() == ActOn(old(View()), Upload(key, path, zigzag, size))
    {
      var job := if key in snapshots then snapshots[key].job else None;
      snapshots := snapshots[key := Snapshot(job, path, 2, zigzag, size)];
    }
  }

  datatype PushResult = Unregistered | Updated(id: JobId) | Created(id: JobId) | DuplicateDelivery

  /** What a push with no other actor in between does to the jobs table, and what it reports. */
  ghost predicate PushEffect(
    before: Jobs, after: Jobs, b: Branch, sha: string, delivery: string, row: JobId, began: int, r: PushResult)
  {
    match r
    case Unregistered => after == before
    case Updated(id) => IsFirstQueuedOn(before, b, id) && after == WithSha(before, id, sha)
    case DuplicateDelivery => NoneQueuedOn(before, b) && DeliveryTaken(before, delivery) && after == before
    case Created(id) =>
      && id == row && NoneQueuedOn(before, b) && !DeliveryTaken(before, delivery)
      && after == before[row := NewJob(b, sha, delivery, began)]
  }

  method HandlePush(
    db: JobDatabase, registered: bool, b: Branch, sha: string, delivery: string, row: JobId, began: int)
    returns (r: PushResult)
    requires row !in db.jobs
    modifies db
    ensures db.snapshots == old(db.snapshots)
    ensures r.Unregistered? <==> !registered
    ensures PushEffect(old(db.jobs), db.jobs, b, sha, delivery, row, began, r)
    ensures r.Updated? ==>
              && r.id in old(db.jobs) && old(db.jobs)[r.id].on == b && old(db.jobs)[r.id].status == Queued
              && db.jobs == old(db.jobs)[r.id := old(db.jobs)[r.id].(sha := sha)]
    ensures r.Created? || r.DuplicateDelivery? ==>
              forall id :: id in old(db.jobs) && old(db.jobs)[id].on == b ==> old(db.jobs)[id].status != Queued
    ensures r.Created? ==>
              && (delivery == "" || forall id :: id in old(db.jobs) ==> old(db.jobs)[id].delivery != Some(delivery))
              && db.jobs == old(db.jobs)[row := Job(b, sha, if delivery == "" then None else Some(delivery), Queued, None,
                                                    began, None, None)]
    ensures r.DuplicateDelivery? ==>
              && delivery != "" && (exists id :: id in old(db.jobs) && old(db.jobs)[id].delivery == Some(delivery))
              && db.jobs == old(db.jobs)
  {
    if !registered {
      return Unregistered;
    }
    var active := db.GetActiveJobsForBranch(b);
    var i := 0;
    while i < |active|
      invariant 0 <= i <= |active|
      invariant forall k :: 0 <= k < i ==> !IsQueued(db.jobs, active[k])
    {
      if db.jobs[active[i]].status == Queued {
        assert forall o :: IsQueuedOn(db.jobs, b, o) ==> o in active;
        db.UpdateJobCommitSha(active[i], sha);
        return Updated(active[i]);
      }
      i := i + 1;
    }
    assert forall o :: IsQueuedOn(db.jobs, b, o) ==> o in active;
    var ok := db.CreateJob(b, sha, delivery, row, began);
    return if ok then Created(row) else DuplicateDelivery;
  }

  lemma IdlePushLocksNoRow(pushes: map<PushId, Push>, p: PushId, push: Push)
    requires p !in pushes && !push.stage.Updating?
    ensures RowLocks(pushes[p := push]) == RowLocks(pushes)
  {
    forall id | id in RowLocks(pushes) ensures id in RowLocks(pushes[p := push]) {
      var q :| q in pushes && pushes[q].stage.Updating? && pushes[q].stage.hit && pushes[q].stage.id == id;
      assert pushes[p := push][q] == pushes[q];
    }
  }

  /** The step relation of the lifecycle. */
  ghost function Steps(hash: string -> int): (State, Event, State) -> bool {
    (s, e, s') => Next(hash, s, e, s')
  }

  function ReadEvents(p: PushId, push: Push, target: Option<JobId>): seq<Event> {
    [Begin(p, push.on, push.sha, push.delivery, push.began), Lock(p), Read(p, target)]
  }

  /** A push on a free lock, up to the point where it has read the active jobs. */
  lemma UninterruptedRead(hash: string -> int, s: State, p: PushId, push: Push, target: Option<JobId>)
    returns (s': State)
    requires p !in s.tx.pushes && LockKey(hash, push.on) !in s.tx.locks
    requires if target.Some? then IsFirstQueuedOn(s.t.jobs, push.on, target.value) else NoneQueuedOn(s.t.jobs, push.on)
    ensures Leads(Steps(hash), s, ReadEvents(p, push, target), s')
    ensures s' == s.(tx := WithPush(hash, s.tx, p, push.(stage := Seen(target))))
  {
    var begin := Begin(p, push.on, push.sha, push.delivery, push.began);
    var s1 := Apply(hash, s, begin);
    var s2 := Apply(hash, s1, Lock(p));
    s' := Apply(hash, s2, Read(p, target));
    assert Steps(hash)(s, begin, s1) && Steps(hash)(s1, Lock(p), s2) && Steps(hash)(s2, Read(p, target), s');
    ThreeSteps(Steps(hash), s, begin, s1, Lock(p), s2, Read(p, target), s');
    assert s'.tx.pushes == s.tx.pushes[p := push.(stage := Seen(target))];
  }

  /** The locks and the transactions once push `p` holds its lock at stage Seen. */
  function WithPush(hash: string -> int, tx: Transactions, p: PushId, push: Push): Transactions {
    Transactions(tx.locks[LockKey(hash, push.on) := p], tx.pushes[p := push])
  }

  /** The second half of a push: the write and, unless the delivery id was taken, the commit. */
  lemma UninterruptedWrite(hash: string -> int, s: State, p: PushId, push: Push, row: JobId)
    returns (s': State, r: PushResult)
    requires p !in s.tx.pushes && LockKey(hash, push.on) !in s.tx.locks && push.stage.Seen?
    requires if push.stage.target.Some? then IsFirstQueuedOn(s.t.jobs, push.on, push.stage.target.value)
             else NoneQueuedOn(s.t.jobs, push.on)
    requires Enabled(hash, s.(tx := WithPush(hash, s.tx, p, push)), Write(p, row))
    ensures var s4 := Apply(hash, s.(tx := WithPush(hash, s.tx, p, push)), Write(p, row));
            if r.DuplicateDelivery? then s' == s4 else Enabled(hash, s4, Commit(p)) && s' == Apply(hash, s4, Commit(p))
    ensures PushEffect(s.t.jobs, s'.t.jobs, push.on, push.sha, push.delivery, row, push.began, r) && !r.Unregistered?
    ensures s'.tx == s.tx && s'.t.snapshots == s.t.snapshots
    ensures !r.DuplicateDelivery? ==> s'.log.accepted == s.log.accepted[push.on := push.sha]
  {
    var s3 := s.(tx := WithPush(hash, s.tx, p, push));
    var s4 := Apply(hash, s3, Write(p, row));
    if p in s4.tx.pushes {
      s' := Apply(hash, s4, Commit(p));
      r := if push.stage.target.Some? then Updated(push.stage.target.value) else Created(row);
    } else {
      s', r := s4, DuplicateDelivery;
    }
    FinishUndoes(hash, s.tx, p, push);
    assert s'.tx == s.tx;
  }

  /** Ending the push leaves the locks and the transactions as they were before it began. */
  lemma FinishUndoes(hash: string -> int, tx: Transactions, p: PushId, push: Push)
    requires p !in tx.pushes && LockKey(hash, push.on) !in tx.locks && push.stage.Seen?
    ensures Finish(hash, WithPush(hash, tx, p, push), p) == tx
    ensures forall stage: Stage :: !stage.Waiting? ==> Finish(hash, MoveTo(WithPush(hash, tx, p, push), p, stage), p) == tx
  {
    assert Finish(hash, WithPush(hash, tx, p, push), p).locks == tx.locks;
    assert Finish(hash, WithPush(hash, tx, p, push), p).pushes == tx.pushes;
    forall stage: Stage | !stage.Waiting?
      ensures Finish(hash, MoveTo(WithPush(hash, tx, p, push), p, stage), p) == tx
    {
      var tx' := Finish(hash, MoveTo(WithPush(hash, tx, p, push), p, stage), p);
      assert tx'.locks == tx.locks && tx'.pushes == tx.pushes;
    }
  }

  /**
   HandlePush refines the interleaved push: run back to back from any state where its lock is free and its
   row id and delivery id are not in use, the lifecycle steps do to the table what HandlePush does, and
   leave no lock or transaction behind.
   */
  lemma UninterruptedPush(hash: string -> int, s: State, p: PushId, push: Push, target: Option<JobId>, row: JobId)
    returns (s': State, r: PushResult)
    requires p !in s.tx.pushes && LockKey(hash, push.on) !in s.tx.locks
    requires if target.Some? then IsFirstQueuedOn(s.t.jobs, push.on, target.value) else NoneQueuedOn(s.t.jobs, push.on)
    requires target.Some? ==> target.value !in RowLocks(s.tx.pushes)
    requires push.stage == Seen(target) && CanInsert(s, push, row)
    ensures Leads(Steps(hash), s,
                  ReadEvents(p, push, target) + [Write(p, row)] + if r.DuplicateDelivery? then [] else [Commit(p)], s')
    ensures PushEffect(s.t.jobs, s'.t.jobs, push.on, push.sha, push.delivery, row, push.began, r) && !r.Unregistered?
    ensures s'.tx == s.tx && s'.t.snapshots == s.t.snapshots
    ensures !r.DuplicateDelivery? ==> s'.log.accepted == s.log.accepted[push.on := push.sha]
  {
    var events := ReadEvents(p, push, target);
    var s3 := UninterruptedRead(hash, s, p, push, target);
    IdlePushLocksNoRow(s.tx.pushes, p, push);
    assert CanInsert(s3, push, row);
    var s4 := Apply(hash, s3, Write(p, row));
    Then(Steps(hash), s, events, s3, Write(p, row), s4);
    s', r := UninterruptedWrite(hash, s, p, push, row);
    if r.DuplicateDelivery? {
      assert events + [Write(p, row)] + [] == events + [Write(p, row)];
    } else {
      Then(Steps(hash), s, events + [Write(p, row)], s4, Commit(p), s');
    }
  }
}
