/** Commit shas, snapshots and claims: what every step of the job lifecycle keeps about the past. */
module JobHistory {
  import opened Wrappers
  import opened Sets
  import opened JobTables
  import opened JobLifecycle
  import opened JobInvariants

  /** Once out of the queue a job keeps its sha and never comes back; once finished it stays finished. */
  ghost predicate Frozen(j: Job, j': Job) {
    && j'.on == j.on && j'.delivery == j.delivery && j'.createdAt == j.createdAt
    && (j.status != Queued ==> j'.status != Queued && j'.sha == j.sha)
    && (j.status.IsTerminal() ==> j'.status.IsTerminal())
  }

  ghost predicate Persists(jobs: Jobs, jobs': Jobs) {
    forall id :: id in jobs ==> id in jobs' && Frozen(jobs[id], jobs'[id])
  }

  lemma StepPersists(hash: string -> int, s: State, e: Event)
    requires CoreInv(hash, s) && Enabled(hash, s, e)
    ensures Persists(s.t.jobs, Apply(hash, s, e).t.jobs)
  {
    if e.Act? {
      ActionKeepsCore(hash, s, e.act);
    } else if e.Commit? {
      assert StageOk(s.t.jobs, s.tx.pushes[e.p]);
    }
  }

  ghost predicate StartsOk(jobs: Jobs, starts: seq<(JobId, string)>) {
    forall start :: start in starts ==>
      start.0 in jobs && jobs[start.0].status != Queued && jobs[start.0].sha == start.1
  }

  ghost predicate ClaimsOk(jobs: Jobs, claims: seq<JobId>, claiming: set<JobId>) {
    && Distinct(claims)
    && (forall id :: id in claims || id in claiming ==> id in jobs && jobs[id].status != Queued)
  }

  /** The jobs for which a snapshot was inserted are finished, distinct, and own the snapshot under their key. */
  ghost predicate InsertsOk(t: Tables, inserts: seq<JobId>) {
    && Distinct(inserts)
    && forall id :: id in inserts ==>
         && id in t.jobs && t.jobs[id].status.IsTerminal()
         && SnapshotKeyOf(t.jobs[id]) in t.snapshots && t.snapshots[SnapshotKeyOf(t.jobs[id])].job == Some(id)
  }

  /** A snapshot that names a job was inserted for it, with the job's own branch and sha. */
  ghost predicate OwnersOk(t: Tables, inserts: seq<JobId>) {
    forall key :: key in t.snapshots && t.snapshots[key].job.Some? ==>
      var id := t.snapshots[key].job.value;
      id in inserts && id in t.jobs && SnapshotKeyOf(t.jobs[id]) == key
  }

  ghost predicate OutcomesOk(jobs: Jobs, log: Log) {
    && (forall id :: id in jobs && jobs[id].status == Succeeded ==> id in log.inserts)
    && (forall id :: id in log.timedOut ==> id in jobs && jobs[id].status.IsTerminal() && id !in log.inserts)
  }

  /** A running job always has the start time the watchdog looks at. */
  ghost predicate RunningHasStart(jobs: Jobs) {
    forall id :: id in jobs && jobs[id].status == Running ==> jobs[id].startedAt.Some?
  }

  ghost predicate HistoryInv(s: State) {
    && StartsOk(s.t.jobs, s.log.starts) && ClaimsOk(s.t.jobs, s.log.claims, s.claiming)
    && InsertsOk(s.t, s.log.inserts) && OwnersOk(s.t, s.log.inserts) && OutcomesOk(s.t.jobs, s.log)
    && RunningHasStart(s.t.jobs)
  }

  // -- Actions --

  lemma ActionKeepsStarts(t: Tables, log: Log, a: Action)
    requires a.Claim? || a.PollerFail? ==> a.id in t.jobs
    requires StartsOk(t.jobs, log.starts) && Persists(t.jobs, ActOn(t, a).jobs)
    ensures StartsOk(ActOn(t, a).jobs, Record(log, t, a).starts)
  {
    if !a.Start? {
      assert Record(log, t, a).starts == log.starts;
    }
  }

  lemma ActionKeepsClaims(t: Tables, log: Log, locked: set<JobId>, claiming: set<JobId>, a: Action)
    requires CanAct(t.jobs, locked, claiming, a)
    requires ClaimsOk(t.jobs, log.claims, claiming) && Persists(t.jobs, ActOn(t, a).jobs)
    ensures ClaimsOk(ActOn(t, a).jobs, Record(log, t, a).claims, Claiming(claiming, a))
  {
    if a.Claim? {
      assert a.id !in log.claims;
    } else {
      assert Record(log, t, a).claims == log.claims;
    }
  }

  /** The only action that inserts a snapshot for a job, in the case where it does. */
  lemma InsertKeepsSnapshots(t: Tables, log: Log, id: JobId, req: CompleteRequest, at: int)
    requires InsertsOk(t, log.inserts) && OwnersOk(t, log.inserts) && OutcomesOk(t.jobs, log)
    requires CompleteReplyOf(t, id, req) == Recorded(Succeeded)
    ensures var t' := CompleteTables(t, id, req, at);
            InsertsOk(t', log.inserts + [id]) && OwnersOk(t', log.inserts + [id])
            && OutcomesOk(t'.jobs, log.(inserts := log.inserts + [id]))
  {
    var t' := CompleteTables(t, id, req, at);
    assert id !in log.inserts;
    var inserts' := log.inserts + [id];
    assert id in inserts' && forall o :: o in inserts' ==> o == id || o in log.inserts;
    forall key | key in t'.snapshots && t'.snapshots[key].job.Some?
      ensures var o := t'.snapshots[key].job.value;
              o in inserts' && o in t'.jobs && SnapshotKeyOf(t'.jobs[o]) == key
    {
      assert key != SnapshotKeyOf(t.jobs[id]) ==> key in t.snapshots;
    }
  }

  /** Every other action leaves the snapshots' owners alone and turns no job into a succeeded one. */
  lemma QuietAction(t: Tables, log: Log, a: Action)
    requires a.Claim? || a.PollerFail? ==> a.id in t.jobs
    requires a.Complete? ==> CompleteReplyOf(t, a.id, a.req) != Recorded(Succeeded)
    ensures var t' := ActOn(t, a);
            && Record(log, t, a).inserts == log.inserts
            && (forall id :: id in t'.jobs && t'.jobs[id].status == Succeeded ==>
                  id in t.jobs && t.jobs[id].status == Succeeded)
            && (forall key :: key in t.snapshots ==> key in t'.snapshots && t'.snapshots[key].job == t.snapshots[key].job)
            && (forall key :: key in t'.snapshots && key !in t.snapshots ==> t'.snapshots[key].job.None?)
  {
    if a.Timeout? {
      assert ActOn(t, a).jobs == TimeoutAll(t.jobs, a.at);
    }
  }

  lemma TimedOutOk(t: Tables, log: Log, at: int)
    requires InsertsOk(t, log.inserts) && OutcomesOk(t.jobs, log)
    ensures var log' := Record(log, t, Timeout(at));
            forall id :: id in log'.timedOut ==>
              id in t.jobs && TimeoutAll(t.jobs, at)[id].status.IsTerminal() && id !in log.inserts
  {
  }

  lemma ActionKeepsOutcomes(t: Tables, log: Log, a: Action)
    requires a.Claim? || a.PollerFail? ==> a.id in t.jobs
    requires InsertsOk(t, log.inserts) && OwnersOk(t, log.inserts) && OutcomesOk(t.jobs, log)
    requires Persists(t.jobs, ActOn(t, a).jobs) && ActOn(t, a).jobs.Keys == t.jobs.Keys
    requires forall id :: id in t.jobs && t.jobs[id].status.IsTerminal() ==>
               SnapshotKeyOf(ActOn(t, a).jobs[id]) == SnapshotKeyOf(t.jobs[id])
    ensures var t' := ActOn(t, a); var log' := Record(log, t, a);
            InsertsOk(t', log'.inserts) && OwnersOk(t', log'.inserts) && OutcomesOk(t'.jobs, log')
  {
    if a.Complete? && CompleteReplyOf(t, a.id, a.req) == Recorded(Succeeded) {
      InsertKeepsSnapshots(t, log, a.id, a.req, a.at);
    } else {
      QuietAction(t, log, a);
      if a.Timeout? {
        TimedOutOk(t, log, a.at);
      } else {
        assert Record(log, t, a).timedOut == log.timedOut;
      }
    }
  }

  lemma ActionKeepsRunningHasStart(t: Tables, a: Action)
    requires a.Claim? || a.PollerFail? ==> a.id in t.jobs
    requires RunningHasStart(t.jobs)
    ensures RunningHasStart(ActOn(t, a).jobs)
  {
    if a.Timeout? {
      assert ActOn(t, a).jobs == TimeoutAll(t.jobs, a.at);
    }
  }

  lemma ActionKeepsHistory(hash: string -> int, s: State, a: Action)
    requires CoreInv(hash, s) && HistoryInv(s) && Enabled(hash, s, Act(a))
    ensures HistoryInv(Apply(hash, s, Act(a)))
  {
    StepPersists(hash, s, Act(a));
    ActionKeepsCore(hash, s, a);
    ActionKeepsStarts(s.t, s.log, a);
    ActionKeepsClaims(s.t, s.log, RowLocks(s.tx.pushes), s.claiming, a);
    ActionKeepsOutcomes(s.t, s.log, a);
    ActionKeepsRunningHasStart(s.t, a);
  }

  // -- Pushes --

  /** A commit touches no row that has left the queue and brings none out of it. */
  lemma CommitLeavesStarted(jobs: Jobs, push: Push)
    requires CanCommit(push) && StageOk(jobs, push)
    ensures forall id :: id in jobs && jobs[id].status != Queued ==>
              id in CommitJobs(jobs, push) && CommitJobs(jobs, push)[id] == jobs[id]
    ensures forall id :: id in CommitJobs(jobs, push) && CommitJobs(jobs, push)[id].status != Queued ==>
              id in jobs && CommitJobs(jobs, push)[id] == jobs[id]
  {
  }

  lemma HistoryOfStarted(s: State, t': Tables, log': Log)
    requires HistoryInv(s) && t'.snapshots == s.t.snapshots
    requires log'.starts == s.log.starts && log'.claims == s.log.claims
    requires log'.inserts == s.log.inserts && log'.timedOut == s.log.timedOut
    requires forall id :: id in s.t.jobs && s.t.jobs[id].status != Queued ==> id in t'.jobs && t'.jobs[id] == s.t.jobs[id]
    requires forall id :: id in t'.jobs && t'.jobs[id].status != Queued ==> id in s.t.jobs && t'.jobs[id] == s.t.jobs[id]
    ensures HistoryInv(s.(t := t', log := log'))
  {
  }

  lemma CommitKeepsHistory(hash: string -> int, s: State, p: PushId)
    requires CoreInv(hash, s) && HistoryInv(s) && Enabled(hash, s, Commit(p))
    ensures HistoryInv(Apply(hash, s, Commit(p)))
  {
    assert StageOk(s.t.jobs, s.tx.pushes[p]);
    CommitLeavesStarted(s.t.jobs, s.tx.pushes[p]);
    var s' := Apply(hash, s, Commit(p));
    HistoryOfStarted(s, s'.t, s'.log);
  }

  lemma StepKeepsHistory(hash: string -> int, s: State, e: Event)
    requires CoreInv(hash, s) && HistoryInv(s) && Enabled(hash, s, e)
    ensures HistoryInv(Apply(hash, s, e))
  {
    if e.Act? {
      ActionKeepsHistory(hash, s, e.act);
    } else if e.Commit? {
      CommitKeepsHistory(hash, s, e.p);
    } else {
      assert Apply(hash, s, e).claiming <= s.claiming;
    }
  }

  /** Every state of every run satisfies both invariants. */
  lemma {:induction false} RunKeepsInvariants(hash: string -> int, run: seq<State>, events: seq<Event>, i: nat)
    requires IsRun(hash, run, events) && i < |run|
    ensures CoreInv(hash, run[i]) && HistoryInv(run[i])
  {
    if i > 0 {
      RunKeepsInvariants(hash, run, events, i - 1);
      assert Next(hash, run[i - 1], events[i - 1], run[i - 1 + 1]);
      StepKeepsCore(hash, run[i - 1], events[i - 1]);
      StepKeepsHistory(hash, run[i - 1], events[i - 1]);
    }
  }
}
