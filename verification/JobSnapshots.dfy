/**
 When a job can succeed at all. The insert of its snapshot has no conflict clause, so a snapshot already stored under
 the job's branch and sha, by an upload or by an earlier job, rolls every successful Complete back.
 */
module JobSnapshots {
  import opened JobTables
  import opened JobLifecycle
  import opened JobInvariants
  import opened JobHistory
  import opened JobTheorems
  import opened JobScenarios

  /** The job has started, has not succeeded, and its key is taken. */
  ghost predicate IsBlocked(t: Tables, id: JobId) {
    && id in t.jobs && t.jobs[id].status != Queued && t.jobs[id].status != Succeeded
    && SnapshotKeyOf(t.jobs[id]) in t.snapshots
  }

  /** No step removes a snapshot. */
  lemma StepKeepsKeys(hash: string -> int, s: State, e: Event)
    requires Enabled(hash, s, e)
    ensures s.t.snapshots.Keys <= Apply(hash, s, e).t.snapshots.Keys
  {
  }

  /** A job comes to have succeeded in a step exactly when the step is its successful Complete and its key is free. */
  lemma SucceedsExactlyWhen(hash: string -> int, s: State, e: Event, id: JobId)
    requires CoreInv(hash, s) && Enabled(hash, s, e) && id in s.t.jobs && s.t.jobs[id].status != Succeeded
    ensures id in Apply(hash, s, e).t.jobs
    ensures Apply(hash, s, e).t.jobs[id].status == Succeeded
            <==> && e.Act? && e.act.Complete? && e.act.id == id && e.act.req.succeeded
                 && !s.t.jobs[id].status.IsTerminal() && SnapshotKeyOf(s.t.jobs[id]) !in s.t.snapshots
  {
    StepPersists(hash, s, e);
    if e.Act? {
      ActionSucceeds(s.t, RowLocks(s.tx.pushes), s.claiming, e.act, id);
    } else if e.Commit? {
      assert StageOk(s.t.jobs, s.tx.pushes[e.p]);
    }
  }

  lemma ActionSucceeds(t: Tables, locked: set<JobId>, claiming: set<JobId>, a: Action, id: JobId)
    requires CanAct(t.jobs, locked, claiming, a) && id in t.jobs && t.jobs[id].status != Succeeded
    ensures id in ActOn(t, a).jobs
    ensures ActOn(t, a).jobs[id].status == Succeeded
            <==> && a.Complete? && a.id == id && a.req.succeeded
                 && !t.jobs[id].status.IsTerminal() && SnapshotKeyOf(t.jobs[id]) !in t.snapshots
  {
    if a.Timeout? {
      assert ActOn(t, a).jobs == TimeoutAll(t.jobs, a.at);
    }
  }

  lemma RunStepBlocked(hash: string -> int, run: seq<State>, events: seq<Event>, i: nat, id: JobId)
    requires IsRun(hash, run, events) && i < |events| && IsBlocked(run[i].t, id)
    ensures IsBlocked(run[i + 1].t, id)
  {
    RunStepPersists(hash, run, events, i, id);
    RunKeepsInvariants(hash, run, events, i);
    assert Next(hash, run[i], events[i], run[i + 1]);
    StepKeepsKeys(hash, run[i], events[i]);
    SucceedsExactlyWhen(hash, run[i], events[i], id);
  }

  /** A started job whose key is taken never succeeds, in any later state of any run. */
  lemma {:induction false} BlockedForever(
    hash: string -> int, run: seq<State>, events: seq<Event>, i: nat, k: nat, id: JobId)
    requires IsRun(hash, run, events) && i <= k < |run| && IsBlocked(run[i].t, id)
    ensures IsBlocked(run[k].t, id)
    decreases k
  {
    if i < k {
      BlockedForever(hash, run, events, i, k - 1, id);
      RunStepBlocked(hash, run, events, k - 1, id);
    }
  }

  /** A run in which the client uploads the snapshot of a running job's commit, and the worker's Complete is lost. */
  lemma UploadBlocksJob(hash: string -> int, b: Branch, sha: string)
    returns (run: seq<State>, events: seq<Event>)
    ensures IsRun(hash, run, events) && |run| == 9
    ensures events[7].Act? && events[7].act.Complete? && events[7].act.id == 0 && events[7].act.req.succeeded
    ensures run[8].t == run[7].t && 0 in run[8].t.jobs && run[8].t.jobs[0].status == Running && IsBlocked(run[8].t, 0)
  {
    run, events := QueueOne(hash, b, sha);
    run, events := Extend(hash, run, events, Act(Claim(0, 2)));
    run, events := Extend(hash, run, events, Act(Upload(SnapshotKey(b, sha), "upload", "1", 1)));
    run, events := Extend(hash, run, events, Act(Complete(0, CompleteRequest(true, "", "path", "1", 1), 3)));
  }
}
