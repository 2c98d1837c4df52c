/** The main results about whole runs of the job lifecycle: the queue, shas, snapshots and verdicts. */
module JobTheorems {
  import opened Wrappers
  import opened Sets
  import opened JobTables
  import opened JobLifecycle
  import opened JobInvariants
  import opened JobHistory

  /** However pushes interleave and whatever the lock hash does, a branch has at most one queued job. */
  lemma AtMostOneQueued(hash: string -> int, run: seq<State>, events: seq<Event>, i: nat)
    requires IsRun(hash, run, events) && i < |run|
    ensures forall b, x, y :: IsQueuedOn(run[i].t.jobs, b, x) && IsQueuedOn(run[i].t.jobs, b, y) ==> x == y
  {
    RunKeepsInvariants(hash, run, events, i);
  }

  lemma RunStepPersists(hash: string -> int, run: seq<State>, events: seq<Event>, i: nat, id: JobId)
    requires IsRun(hash, run, events) && i < |events| && id in run[i].t.jobs
    ensures id in run[i + 1].t.jobs && Frozen(run[i].t.jobs[id], run[i + 1].t.jobs[id])
  {
    RunKeepsInvariants(hash, run, events, i);
    assert Next(hash, run[i], events[i], run[i + 1]);
    StepPersists(hash, run[i], events[i]);
  }

  /** A job that has left the queue never returns to it, and its branch and sha are fixed from then on. */
  lemma {:induction false} FrozenForever(
    hash: string -> int, run: seq<State>, events: seq<Event>, i: nat, k: nat, id: JobId)
    requires IsRun(hash, run, events) && i <= k < |run| && id in run[i].t.jobs
    ensures id in run[k].t.jobs && Frozen(run[i].t.jobs[id], run[k].t.jobs[id])
    decreases k
  {
    if i < k {
      FrozenForever(hash, run, events, i, k - 1, id);
      RunStepPersists(hash, run, events, k - 1, id);
    }
  }

  /** All successful Start replies for a job, and its snapshot if it has one, carry one sha. */
  lemma StartsAndSnapshotAgree(hash: string -> int, run: seq<State>, events: seq<Event>, i: nat)
    requires IsRun(hash, run, events) && i < |run|
    ensures forall x, y :: x in run[i].log.starts && y in run[i].log.starts && x.0 == y.0 ==> x.1 == y.1
    ensures forall x, key :: x in run[i].log.starts && key in run[i].t.snapshots
                             && run[i].t.snapshots[key].job == Some(x.0) ==>
              key.sha == x.1 && x.0 in run[i].t.jobs && key.on == run[i].t.jobs[x.0].on
  {
    RunKeepsInvariants(hash, run, events, i);
  }

  /** Logs only grow. */
  lemma {:induction false} LogGrows(hash: string -> int, run: seq<State>, events: seq<Event>, i: nat, k: nat)
    requires IsRun(hash, run, events) && i <= k < |run|
    ensures run[i].log.timedOut <= run[k].log.timedOut
    decreases k
  {
    if i < k {
      LogGrows(hash, run, events, i, k - 1);
      assert Next(hash, run[k - 1], events[k - 1], run[k - 1 + 1]);
    }
  }

  ghost predicate OwnsSnapshot(t: Tables, id: JobId, key: SnapshotKey) {
    key in t.snapshots && t.snapshots[key].job == Some(id)
  }

  /** Over duplicated, retried and racing callbacks, at most one snapshot is inserted per job. */
  lemma OneInsertPerJob(hash: string -> int, run: seq<State>, events: seq<Event>, i: nat)
    requires IsRun(hash, run, events) && i < |run|
    ensures Distinct(run[i].log.inserts)
  {
    RunKeepsInvariants(hash, run, events, i);
  }

  /**
   A succeeded job owns exactly one snapshot, the one under its own branch and sha, and no other job of the same
   branch and sha has succeeded.
   */
  lemma SnapshotPerSucceededJob(hash: string -> int, run: seq<State>, events: seq<Event>, i: nat, id: JobId)
    requires IsRun(hash, run, events) && i < |run|
    requires id in run[i].t.jobs && run[i].t.jobs[id].status == Succeeded
    ensures forall key :: OwnsSnapshot(run[i].t, id, key) <==> key == SnapshotKeyOf(run[i].t.jobs[id])
    ensures forall o | o in run[i].t.jobs && run[i].t.jobs[o].status == Succeeded ::
              SnapshotKeyOf(run[i].t.jobs[o]) == SnapshotKeyOf(run[i].t.jobs[id]) ==> o == id
  {
    RunKeepsInvariants(hash, run, events, i);
  }

  /** A job that the watchdog failed never owns a snapshot, then or later. */
  lemma TimedOutNeverGainsSnapshot(
    hash: string -> int, run: seq<State>, events: seq<Event>, i: nat, k: nat, id: JobId)
    requires IsRun(hash, run, events) && i <= k < |run| && id in run[i].log.timedOut
    ensures id !in run[k].log.inserts && forall key :: !OwnsSnapshot(run[k].t, id, key)
  {
    LogGrows(hash, run, events, i, k);
    RunKeepsInvariants(hash, run, events, k);
  }

  /** No job is claimed twice. */
  lemma ClaimedOnce(hash: string -> int, run: seq<State>, events: seq<Event>, i: nat)
    requires IsRun(hash, run, events) && i < |run|
    ensures Distinct(run[i].log.claims)
  {
    RunKeepsInvariants(hash, run, events, i);
  }

  // -- Verdicts --

  predicate IsPollerFail(e: Event, id: JobId) {
    e.Act? && e.act.PollerFail? && e.act.id == id
  }

  /**
   The one way a finished job's status changes: the poller's unguarded failure write on a job that finished
   with another verdict in the meantime.
   */
  lemma VerdictChangesExactlyWhen(hash: string -> int, s: State, e: Event, id: JobId)
    requires CoreInv(hash, s) && Enabled(hash, s, e)
    requires id in s.t.jobs && s.t.jobs[id].status.IsTerminal()
    ensures id in Apply(hash, s, e).t.jobs
    ensures Apply(hash, s, e).t.jobs[id].status != s.t.jobs[id].status
            <==> IsPollerFail(e, id) && s.t.jobs[id].status != Failed
  {
    StepPersists(hash, s, e);
    if e.Act? {
      match e.act
      case Claim(_, _) =>
      case PollerFail(_, _) =>
      case Start(_, _) =>
      case Complete(_, _, _) =>
      case Timeout(at) => assert Apply(hash, s, e).t.jobs == TimeoutAll(s.t.jobs, at);
      case Upload(_, _, _, _) =>
    } else if e.Commit? {
      assert StageOk(s.t.jobs, s.tx.pushes[e.p]);
      CommitLeavesStarted(s.t.jobs, s.tx.pushes[e.p]);
    }
  }

  /** The poller's failure write finds the job as its claim left it. */
  ghost predicate PollerIsPrompt(run: seq<State>, events: seq<Event>)
    requires |run| == |events| + 1
  {
    forall i :: 0 <= i < |events| && events[i].Act? && events[i].act.PollerFail?
                && events[i].act.id in run[i].t.jobs ==>
      run[i].t.jobs[events[i].act.id].status == Running
  }

  lemma StepLowersRank(hash: string -> int, s: State, e: Event, id: JobId)
    requires CoreInv(hash, s) && Enabled(hash, s, e) && id in s.t.jobs
    requires IsPollerFail(e, id) ==> s.t.jobs[id].status == Running
    ensures id in Apply(hash, s, e).t.jobs
    ensures var old', new' := s.t.jobs[id].status, Apply(hash, s, e).t.jobs[id].status;
            new' == old' || new'.Rank() < old'.Rank()
  {
    StepPersists(hash, s, e);
    if s.t.jobs[id].status.IsTerminal() {
      VerdictChangesExactlyWhen(hash, s, e, id);
    } else if e.Act? {
      match e.act
      case Claim(_, _) =>
      case PollerFail(_, _) =>
      case Start(_, _) =>
      case Complete(_, _, _) =>
      case Timeout(at) => assert Apply(hash, s, e).t.jobs == TimeoutAll(s.t.jobs, at);
      case Upload(_, _, _, _) =>
    } else if e.Commit? {
      assert StageOk(s.t.jobs, s.tx.pushes[e.p]);
    }
  }

  /** How many of the first `n` steps of a run change the job's status. */
  ghost function StatusChanges(run: seq<State>, id: JobId, n: nat): nat
    requires n < |run|
  {
    if n == 0 then 0
    else
      StatusChanges(run, id, n - 1) +
      if id in run[n - 1].t.jobs && id in run[n].t.jobs && run[n].t.jobs[id].status != run[n - 1].t.jobs[id].status
      then 1 else 0
  }

  /** In every run with prompt pollers a job's status changes at most twice; the first verdict is final. */
  lemma {:induction false} AtMostTwoStatusChanges(
    hash: string -> int, run: seq<State>, events: seq<Event>, id: JobId, n: nat)
    requires IsRun(hash, run, events) && PollerIsPrompt(run, events) && n < |run|
    ensures StatusChanges(run, id, n) <= 2
    ensures id in run[n].t.jobs ==> StatusChanges(run, id, n) + run[n].t.jobs[id].status.Rank() <= 2
    ensures id !in run[n].t.jobs ==> StatusChanges(run, id, n) == 0
  {
    if n > 0 {
      AtMostTwoStatusChanges(hash, run, events, id, n - 1);
      RunKeepsInvariants(hash, run, events, n - 1);
      assert Next(hash, run[n - 1], events[n - 1], run[n - 1 + 1]);
      if id in run[n - 1].t.jobs {
        StepLowersRank(hash, run[n - 1], events[n - 1], id);
      }
    }
  }

}
