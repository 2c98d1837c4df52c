/**
 When the job with the greatest created_at on a branch carries the sha of the last accepted push. created_at is
 the time a push's transaction began, which need not be the order in which pushes take the lock.
 */
module JobYoungest {
  import opened JobTables
  import opened JobLifecycle
  import opened JobInvariants
  import opened JobHistory
  import opened JobScenarios
  import opened JobFreshness

  /** created_at is the time the transaction began, so rows come in order only if pushes lock in order. */
  ghost predicate CreatedInOrder(run: seq<State>, events: seq<Event>)
    requires |run| == |events| + 1
  {
    forall i :: 0 <= i < |events| && events[i].Commit? && events[i].p in run[i].tx.pushes ==>
      CreatesLater(run[i].t.jobs, run[i].tx.pushes[events[i].p])
  }

  ghost predicate CreatesLater(jobs: Jobs, push: Push) {
    push.stage.Creating? ==> forall id :: id in jobs && jobs[id].on == push.on ==> jobs[id].createdAt < push.began
  }

  /** The job is the one created last on its branch, or has a smaller created_at than that one. */
  ghost predicate AgeOk(jobs: Jobs, newest: map<Branch, JobId>, id: JobId)
    requires id in jobs
  {
    var b := jobs[id].on;
    && b in newest && newest[b] in jobs
    && (id != newest[b] ==> jobs[id].createdAt < jobs[newest[b]].createdAt)
  }

  /** The job created last is the one with the greatest created_at. */
  ghost predicate AgesOk(s: State) {
    forall id :: id in s.t.jobs ==> AgeOk(s.t.jobs, s.log.newest, id)
  }

  lemma CommitKeepsAges(hash: string -> int, s: State, p: PushId)
    requires CoreInv(hash, s) && AgesOk(s) && Enabled(hash, s, Commit(p))
    requires CreatesLater(s.t.jobs, s.tx.pushes[p])
    ensures AgesOk(Apply(hash, s, Commit(p)))
  {
    assert StageOk(s.t.jobs, s.tx.pushes[p]);
    var s' := Apply(hash, s, Commit(p));
    forall id | id in s'.t.jobs ensures AgeOk(s'.t.jobs, s'.log.newest, id) {
      assert id in s.t.jobs || s.tx.pushes[p].stage == Creating(id);
      assert id in s.t.jobs ==> AgeOk(s.t.jobs, s.log.newest, id);
    }
  }

  lemma SettlingKeepsAge(jobs: Jobs, jobs': Jobs, locked: set<JobId>, newest: map<Branch, JobId>, id: JobId)
    requires Settles(jobs, jobs', locked) && id in jobs && AgeOk(jobs, newest, id)
    ensures id in jobs' && AgeOk(jobs', newest, id)
  {
    var last := newest[jobs[id].on];
    assert jobs'[id].on == jobs[id].on && jobs'[id].createdAt == jobs[id].createdAt;
    assert jobs'[last].createdAt == jobs[last].createdAt;
  }

  lemma SettlingKeepsAges(s: State, s': State, locked: set<JobId>)
    requires AgesOk(s) && Settles(s.t.jobs, s'.t.jobs, locked) && s'.log.newest == s.log.newest
    ensures AgesOk(s')
  {
    forall id | id in s'.t.jobs ensures AgeOk(s'.t.jobs, s'.log.newest, id) {
      SettlingKeepsAge(s.t.jobs, s'.t.jobs, locked, s.log.newest, id);
    }
  }

  lemma StepKeepsAges(hash: string -> int, s: State, e: Event)
    requires CoreInv(hash, s) && AgesOk(s) && Enabled(hash, s, e)
    requires e.Commit? ==> CreatesLater(s.t.jobs, s.tx.pushes[e.p])
    ensures AgesOk(Apply(hash, s, e))
  {
    if e.Act? {
      RecordKeepsQueueLog(s.log, s.t, e.act);
      ActionKeepsCore(hash, s, e.act);
      SettlingKeepsAges(s, Apply(hash, s, e), RowLocks(s.tx.pushes));
    } else if e.Commit? {
      CommitKeepsAges(hash, s, e.p);
    }
  }

  lemma {:induction false} RunKeepsAges(hash: string -> int, run: seq<State>, events: seq<Event>, i: nat)
    requires IsRun(hash, run, events) && CreatedInOrder(run, events) && i < |run|
    ensures AgesOk(run[i])
  {
    if i > 0 {
      RunKeepsAges(hash, run, events, i - 1);
      RunKeepsInvariants(hash, run, events, i - 1);
      assert Next(hash, run[i - 1], events[i - 1], run[i - 1 + 1]);
      StepKeepsAges(hash, run[i - 1], events[i - 1]);
    }
  }

  ghost predicate IsYoungestOn(jobs: Jobs, b: Branch, id: JobId) {
    && id in jobs && jobs[id].on == b
    && forall o :: o in jobs && jobs[o].on == b ==> jobs[o].createdAt <= jobs[id].createdAt
  }

  /** With both premises, the job of a branch with the greatest created_at carries the last accepted sha. */
  lemma YoungestIsLastPush(
    hash: string -> int, run: seq<State>, events: seq<Event>, i: nat, b: Branch, id: JobId)
    requires IsRun(hash, run, events) && i < |run|
    requires WindowsAreQuiet(run, events) && CreatedInOrder(run, events)
    requires IsYoungestOn(run[i].t.jobs, b, id) && b in run[i].log.accepted
    ensures run[i].t.jobs[id].sha == run[i].log.accepted[b]
  {
    NewestIsLastPush(hash, run, events, i);
    RunKeepsAges(hash, run, events, i);
    RunKeepsInvariants(hash, run, events, i);
    assert AgeOk(run[i].t.jobs, run[i].log.newest, id);
  }

  /** Push 1 began first and still waits; push 2 has created a job, which a poller has claimed. */
  lemma LatePushWaits(hash: string -> int, b: Branch, sha: string, sha': string)
    returns (run: seq<State>, events: seq<Event>)
    ensures IsRun(hash, run, events) && |run| == 8
    ensures var s := run[7];
            && s.t == Tables(map[0 := Claimed(NewJob(b, sha', "", 2), 3)], map[])
            && s.tx == Transactions(map[], map[1 := Push(b, sha, "", 1, Waiting)])
            && s.log.accepted == s.log.effective == map[b := sha']
  {
    run, events := Extend(hash, [EmptyState()], [], Begin(1, b, sha, "", 1));
    run, events := Extend(hash, run, events, Begin(2, b, sha', "", 2));
    run, events := PushCreates(hash, run, events, 2, 0);
    var s := run[6];
    assert s.tx == Transactions(map[], map[1 := Push(b, sha, "", 1, Waiting)]);
    assert s.t == Tables(map[0 := NewJob(b, sha', "", 2)], map[]);
    run, events := Extend(hash, run, events, Act(Claim(0, 3)));
  }

  /**
   The run that breaks the order: push 1 begins first, push 2 gets the lock first, its job is claimed, and
   push 1 then inserts an older row. The youngest job carries the sha of the earlier acceptance, although
   every write of the run reached its row.
   */
  lemma LateLockReordersJobs(hash: string -> int, b: Branch, sha: string, sha': string)
    returns (run: seq<State>, events: seq<Event>)
    requires sha != sha'
    ensures IsRun(hash, run, events) && |run| == 12 && AllHit(run[11])
    ensures b in run[11].log.accepted && run[11].log.accepted[b] == sha
    ensures IsYoungestOn(run[11].t.jobs, b, 0) && run[11].t.jobs[0].sha == sha'
  {
    run, events := LatePushWaits(hash, b, sha, sha');
    run, events := PushCreates(hash, run, events, 1, 1);
  }

  // -- The exact condition --

  ghost predicate YoungestCarry(jobs: Jobs, b: Branch, sha: string) {
    forall id :: IsYoungestOn(jobs, b, id) ==> jobs[id].sha == sha
  }

  /**
   What a committing push must find for the youngest rows of its branch to carry its sha afterwards. An
   inserting push: every row of the branch is older than its transaction, or the youngest ones carry the sha
   already. An updating push: every youngest row is the one it hit, or carries the sha already.
   */
  ghost predicate FindsOrder(jobs: Jobs, push: Push) {
    if push.stage.Creating? then CreatesLater(jobs, push) || YoungestCarry(jobs, push.on, push.sha)
    else
      forall id :: IsYoungestOn(jobs, push.on, id) ==>
        jobs[id].sha == push.sha || (push.stage.Updating? && push.stage.hit && push.stage.id == id)
  }

  lemma InsertedYoungest(jobs: Jobs, push: Push)
    requires push.stage.Creating? && push.stage.id !in jobs
    ensures YoungestCarry(CommitJobs(jobs, push), push.on, push.sha) <==> FindsOrder(jobs, push)
  {
    var b, jobs' := push.on, CommitJobs(jobs, push);
    if CreatesLater(jobs, push) {
      forall id | IsYoungestOn(jobs', b, id) ensures id == push.stage.id {
        assert jobs'[push.stage.id].createdAt <= jobs'[id].createdAt;
      }
    } else {
      var late :| late in jobs && jobs[late].on == b && jobs[late].createdAt >= push.began;
      forall id | id in jobs ensures IsYoungestOn(jobs', b, id) <==> IsYoungestOn(jobs, b, id) {
        if IsYoungestOn(jobs', b, id) {
          forall o | o in jobs && jobs[o].on == b ensures jobs[o].createdAt <= jobs[id].createdAt {
            assert o in jobs' && jobs'[o] == jobs[o];
          }
        }
      }
    }
  }

  predicate IsOn(jobs: Jobs, b: Branch, id: JobId) {
    id in jobs && jobs[id].on == b
  }

  /** Both tables have the same rows on the branch, with the same creation times. */
  ghost predicate SameAges(jobs: Jobs, jobs': Jobs, b: Branch) {
    && (forall id :: IsOn(jobs, b, id) <==> IsOn(jobs', b, id))
    && (forall id :: IsOn(jobs, b, id) ==> jobs'[id].createdAt == jobs[id].createdAt)
  }

  lemma SameYoungest(jobs: Jobs, jobs': Jobs, b: Branch, id: JobId)
    requires SameAges(jobs, jobs', b)
    ensures IsYoungestOn(jobs, b, id) <==> IsYoungestOn(jobs', b, id)
  {
    assert forall o :: o in jobs && jobs[o].on == b <==> IsOn(jobs, b, o);
    assert forall o :: o in jobs' && jobs'[o].on == b <==> IsOn(jobs', b, o);
  }

  lemma UpdatedYoungest(jobs: Jobs, push: Push)
    requires push.stage.Updating? && StageOk(jobs, push)
    ensures YoungestCarry(CommitJobs(jobs, push), push.on, push.sha) <==> FindsOrder(jobs, push)
  {
    var b, jobs' := push.on, CommitJobs(jobs, push);
    forall id ensures IsYoungestOn(jobs', b, id) <==> IsYoungestOn(jobs, b, id) {
      SameYoungest(jobs, jobs', b, id);
    }
  }

  /** Both tables have the same rows on the branch, with the same creation times and shas. */
  ghost predicate SameRows(jobs: Jobs, jobs': Jobs, b: Branch) {
    SameAges(jobs, jobs', b) && forall id :: IsOn(jobs, b, id) ==> jobs'[id].sha == jobs[id].sha
  }

  lemma SameCarry(jobs: Jobs, jobs': Jobs, b: Branch, sha: string)
    requires SameRows(jobs, jobs', b)
    ensures YoungestCarry(jobs, b, sha) <==> YoungestCarry(jobs', b, sha)
  {
    forall id ensures IsYoungestOn(jobs, b, id) <==> IsYoungestOn(jobs', b, id) {
      SameYoungest(jobs, jobs', b, id);
    }
    assert forall id :: IsYoungestOn(jobs, b, id) ==> IsOn(jobs, b, id);
  }

  ghost predicate CommitsOn(s: State, e: Event, b: Branch) {
    e.Commit? && e.p in s.tx.pushes && s.tx.pushes[e.p].on == b
  }

  lemma SettlingKeepsRows(jobs: Jobs, jobs': Jobs, locked: set<JobId>, b: Branch)
    requires Settles(jobs, jobs', locked)
    ensures SameRows(jobs, jobs', b)
  {
  }

  lemma CommitKeepsRows(jobs: Jobs, push: Push, b: Branch)
    requires CanCommit(push) && StageOk(jobs, push) && push.on != b
    ensures SameRows(jobs, CommitJobs(jobs, push), b)
  {
  }

  lemma StepKeepsRows(hash: string -> int, s: State, e: Event, b: Branch)
    requires CoreInv(hash, s) && Enabled(hash, s, e) && !CommitsOn(s, e, b)
    ensures SameRows(s.t.jobs, Apply(hash, s, e).t.jobs, b)
    ensures b in s.log.accepted ==>
              b in Apply(hash, s, e).log.accepted && Apply(hash, s, e).log.accepted[b] == s.log.accepted[b]
  {
    if e.Act? {
      ActionKeepsCore(hash, s, e.act);
      SettlingKeepsRows(s.t.jobs, ActOn(s.t, e.act).jobs, RowLocks(s.tx.pushes), b);
      RecordKeepsQueueLog(s.log, s.t, e.act);
    } else if e.Commit? {
      assert StageOk(s.t.jobs, s.tx.pushes[e.p]);
      CommitKeepsRows(s.t.jobs, s.tx.pushes[e.p], b);
    }
  }

  ghost predicate NoCommitOn(run: seq<State>, events: seq<Event>, b: Branch, i: nat, k: nat)
    requires k <= |events| < |run|
  {
    forall m :: i <= m < k ==> !CommitsOn(run[m], events[m], b)
  }

  lemma RunStepKeepsRows(hash: string -> int, run: seq<State>, events: seq<Event>, b: Branch, i: nat)
    requires IsRun(hash, run, events) && i < |events| && !CommitsOn(run[i], events[i], b)
    ensures SameRows(run[i].t.jobs, run[i + 1].t.jobs, b)
    ensures b in run[i].log.accepted ==>
              b in run[i + 1].log.accepted && run[i + 1].log.accepted[b] == run[i].log.accepted[b]
  {
    RunKeepsInvariants(hash, run, events, i);
    assert Next(hash, run[i], events[i], run[i + 1]);
    StepKeepsRows(hash, run[i], events[i], b);
  }

  /** The last accepted sha of the branch, and whether the youngest rows carry it. */
  ghost predicate Stands(s: State, b: Branch, sha: string, carried: bool) {
    b in s.log.accepted && s.log.accepted[b] == sha && YoungestCarry(s.t.jobs, b, sha) == carried
  }

  lemma RunStepStands(
    hash: string -> int, run: seq<State>, events: seq<Event>, b: Branch, sha: string, carried: bool, i: nat)
    requires IsRun(hash, run, events) && i < |events| && !CommitsOn(run[i], events[i], b)
    requires Stands(run[i], b, sha, carried)
    ensures Stands(run[i + 1], b, sha, carried)
  {
    RunStepKeepsRows(hash, run, events, b, i);
    SameCarry(run[i].t.jobs, run[i + 1].t.jobs, b, sha);
  }

  lemma {:induction false} StandsUntilCommit(
    hash: string -> int, run: seq<State>, events: seq<Event>, b: Branch, sha: string, carried: bool, i: nat, k: nat)
    requires IsRun(hash, run, events) && i <= k < |run| && NoCommitOn(run, events, b, i, k)
    requires Stands(run[i], b, sha, carried)
    ensures Stands(run[k], b, sha, carried)
    decreases k
  {
    if i < k {
      StandsUntilCommit(hash, run, events, b, sha, carried, i, k - 1);
      RunStepStands(hash, run, events, b, sha, carried, k - 1);
    }
  }

  /**
   Exactly when the youngest rows of a branch carry the sha of its last accepted push, at any later state up
   to the next commit on the branch: when that push, as it committed, found the order it needed.
   */
  lemma YoungestCarryExactlyWhen(
    hash: string -> int, run: seq<State>, events: seq<Event>, i: nat, k: nat, p: PushId)
    requires IsRun(hash, run, events) && i < k < |run| && events[i] == Commit(p) && p in run[i].tx.pushes
    requires NoCommitOn(run, events, run[i].tx.pushes[p].on, i + 1, k)
    ensures var push := run[i].tx.pushes[p];
            && push.on in run[k].log.accepted && run[k].log.accepted[push.on] == push.sha
            && (YoungestCarry(run[k].t.jobs, push.on, push.sha) <==> FindsOrder(run[i].t.jobs, push))
  {
    var push := run[i].tx.pushes[p];
    assert CanCommit(push) && StageOk(run[i].t.jobs, push) && run[i + 1].t.jobs == CommitJobs(run[i].t.jobs, push)
           && run[i + 1].log == CommitLog(run[i].log, push) by {
      RunKeepsInvariants(hash, run, events, i);
      assert Next(hash, run[i], events[i], run[i + 1]);
    }
    if push.stage.Creating? {
      InsertedYoungest(run[i].t.jobs, push);
    } else {
      UpdatedYoungest(run[i].t.jobs, push);
    }
    StandsUntilCommit(hash, run, events, push.on, push.sha, FindsOrder(run[i].t.jobs, push), i + 1, k);
  }
}
