/** Start callbacks and the watchdog over whole runs: who is still let in, and who is timed out. */
module JobCallbacks {
  import opened Wrappers
  import opened JobTables
  import opened JobLifecycle
  import opened JobInvariants
  import opened JobHistory
  import opened JobTheorems

  /** The statuses a job ends in, written out. */
  predicate IsOver(status: JobStatus) {
    status in {Succeeded, Failed, Cancelled, Superseded}
  }

  // -- Start --

  /** A step adds at most one successful reply, and only for a job that is queued or running. */
  lemma StepStarts(hash: string -> int, s: State, e: Event)
    requires Enabled(hash, s, e)
    ensures var starts, starts' := s.log.starts, Apply(hash, s, e).log.starts;
            || starts' == starts
            || (&& e.Act? && e.act.Start? && e.act.id in s.t.jobs && s.t.jobs[e.act.id].status in {Queued, Running}
                && starts' == starts + [(e.act.id, s.t.jobs[e.act.id].sha)])
  {
  }

  ghost predicate NoNewStart(s: State, s': State, id: JobId) {
    && s.log.starts <= s'.log.starts
    && forall m :: |s.log.starts| <= m < |s'.log.starts| ==> s'.log.starts[m].0 != id
  }

  lemma RunStepNoNewStart(hash: string -> int, run: seq<State>, events: seq<Event>, i: nat, k: nat, id: JobId)
    requires IsRun(hash, run, events) && i <= k < |events|
    requires id in run[i].t.jobs && IsOver(run[i].t.jobs[id].status) && NoNewStart(run[i], run[k], id)
    ensures NoNewStart(run[i], run[k + 1], id)
  {
    FrozenForever(hash, run, events, i, k, id);
    assert Next(hash, run[k], events[k], run[k + 1]);
    StepStarts(hash, run[k], events[k]);
  }

  /** Once a job is over no later Start for it succeeds, however often a worker retries. */
  lemma {:induction false} OverIsNeverStarted(
    hash: string -> int, run: seq<State>, events: seq<Event>, i: nat, k: nat, id: JobId)
    requires IsRun(hash, run, events) && i <= k < |run|
    requires id in run[i].t.jobs && IsOver(run[i].t.jobs[id].status)
    ensures NoNewStart(run[i], run[k], id)
    decreases k
  {
    if i < k {
      OverIsNeverStarted(hash, run, events, i, k - 1, id);
      RunStepNoNewStart(hash, run, events, i, k - 1, id);
    }
  }

  // -- The watchdog --

  /** A step times a job out exactly when it is the watchdog's and the job has run for more than twenty minutes. */
  lemma TimedOutExactlyWhen(hash: string -> int, s: State, e: Event, id: JobId)
    requires Enabled(hash, s, e) && id !in s.log.timedOut
    ensures id in Apply(hash, s, e).log.timedOut
            <==> && e.Act? && e.act.Timeout? && id in s.t.jobs && s.t.jobs[id].status == Running
                 && s.t.jobs[id].startedAt.Some? && s.t.jobs[id].startedAt.value + 1_200_000_000 < e.act.at
  {
  }

  /** Right after the watchdog has run, every running job started within the last twenty minutes. */
  lemma NoneStuckAfterTimeout(hash: string -> int, run: seq<State>, events: seq<Event>, i: nat, at: int, id: JobId)
    requires IsRun(hash, run, events) && i < |events| && events[i] == Act(Timeout(at))
    requires id in run[i + 1].t.jobs && run[i + 1].t.jobs[id].status == Running
    ensures run[i + 1].t.jobs[id].startedAt.Some? && run[i + 1].t.jobs[id].startedAt.value + 1_200_000_000 >= at
  {
    RunKeepsInvariants(hash, run, events, i + 1);
    assert Next(hash, run[i], events[i], run[i + 1]);
    assert run[i + 1].t.jobs == TimeoutAll(run[i].t.jobs, at);
  }

  /** A running job's start time is that of the claim or of the Start that set it running. */
  lemma StartTimeIsWhenItStarted(hash: string -> int, s: State, e: Event, id: JobId)
    requires CoreInv(hash, s) && Enabled(hash, s, e) && id in s.t.jobs && s.t.jobs[id].status != Running
    requires id in Apply(hash, s, e).t.jobs && Apply(hash, s, e).t.jobs[id].status == Running
    ensures e.Act? && (e.act.Claim? || e.act.Start?) && e.act.id == id
    ensures Apply(hash, s, e).t.jobs[id].startedAt == Some(e.act.at)
  {
  }
}
