/** Concrete runs of the job lifecycle that show where its promises need a premise. */
module JobScenarios {
  import opened Wrappers
  import opened JobTables
  import opened JobLifecycle
  import opened JobTheorems

  /** One more step at the end of a run. */
  lemma Extend(hash: string -> int, run: seq<State>, events: seq<Event>, e: Event)
    returns (run': seq<State>, events': seq<Event>)
    requires IsRun(hash, run, events) && Enabled(hash, run[|run| - 1], e)
    ensures run' == run + [Apply(hash, run[|run| - 1], e)] && events' == events + [e] && IsRun(hash, run', events')
  {
    run' := run + [Apply(hash, run[|run| - 1], e)];
    events' := events + [e];
    forall i | 0 <= i < |events'| ensures Next(hash, run'[i], events'[i], run'[i + 1]) {
      if i < |events| {
        assert Next(hash, run[i], events[i], run[i + 1]);
      }
    }
  }

  function EmptyState(): State {
    State(Tables(map[], map[]), Transactions(map[], map[]), {}, Log([], [], {}, [], map[], map[], map[]))
  }

  /** A waiting push locks, finds nothing queued, inserts row `row` and commits, undisturbed. */
  lemma PushCreates(hash: string -> int, run: seq<State>, events: seq<Event>, p: PushId, row: JobId)
    returns (run': seq<State>, events': seq<Event>)
    requires IsRun(hash, run, events)
    requires var s := run[|run| - 1];
             && p in s.tx.pushes && !DeliveryTaken(s.t.jobs, s.tx.pushes[p].delivery) && s.tx.locks == map[]
             && (forall q :: q in s.tx.pushes ==> s.tx.pushes[q].stage.Waiting?)
             && NoneQueuedOn(s.t.jobs, s.tx.pushes[p].on) && row !in s.t.jobs
    ensures IsRun(hash, run', events') && |run'| == |run| + 4 && run <= run'
    ensures var s, s' := run[|run| - 1], run'[|run'| - 1]; var push := s.tx.pushes[p];
            && s'.t == s.t.(jobs := s.t.jobs[row := NewJob(push.on, push.sha, push.delivery, push.began)])
            && s'.tx == s.tx.(pushes := s.tx.pushes - {p}) && s'.claiming == s.claiming
            && s'.log == s.log.(accepted := s.log.accepted[push.on := push.sha],
                                effective := s.log.effective[push.on := push.sha],
                                newest := s.log.newest[push.on := row])
  {
    run', events' := Extend(hash, run, events, Lock(p));
    run', events' := Extend(hash, run', events', Read(p, None));
    run', events' := Extend(hash, run', events', Write(p, row));
    run', events' := Extend(hash, run', events', Commit(p));
    var s, s' := run[|run| - 1], run'[|run'| - 1];
    assert s'.tx.pushes == s.tx.pushes - {p} && s'.tx.locks == map[];
  }

  /** A waiting push locks, finds row `row` queued, updates it and commits, undisturbed. */
  lemma PushUpdates(hash: string -> int, run: seq<State>, events: seq<Event>, p: PushId, row: JobId)
    returns (run': seq<State>, events': seq<Event>)
    requires IsRun(hash, run, events)
    requires var s := run[|run| - 1];
             && p in s.tx.pushes && s.tx.locks == map[]
             && (forall q :: q in s.tx.pushes ==> s.tx.pushes[q].stage.Waiting?)
             && IsFirstQueuedOn(s.t.jobs, s.tx.pushes[p].on, row)
    ensures IsRun(hash, run', events') && |run'| == |run| + 4 && run <= run'
    ensures var s, s' := run[|run| - 1], run'[|run'| - 1]; var push := s.tx.pushes[p];
            && s'.t == s.t.(jobs := WithSha(s.t.jobs, row, push.sha))
            && s'.tx == s.tx.(pushes := s.tx.pushes - {p}) && s'.claiming == s.claiming
            && s'.log == s.log.(accepted := s.log.accepted[push.on := push.sha],
                                effective := s.log.effective[push.on := push.sha])
  {
    run', events' := Extend(hash, run, events, Lock(p));
    run', events' := Extend(hash, run', events', Read(p, Some(row)));
    run', events' := Extend(hash, run', events', Write(p, row));
    run', events' := Extend(hash, run', events', Commit(p));
    var s, s' := run[|run| - 1], run'[|run'| - 1];
    assert s'.tx.pushes == s.tx.pushes - {p} && s'.tx.locks == map[];
  }

  lemma QueueOne(hash: string -> int, b: Branch, sha: string) returns (run: seq<State>, events: seq<Event>)
    ensures IsRun(hash, run, events) && |run| == 6
    ensures var s := run[5];
            && s.t == Tables(map[0 := NewJob(b, sha, "", 1)], map[])
            && s.tx == Transactions(map[], map[]) && s.claiming == {} && s.log.claims == []
            && s.log.accepted == map[b := sha] && s.log.newest == map[b := 0]
  {
    run, events := Extend(hash, [EmptyState()], [], Begin(0, b, sha, "", 1));
    run, events := PushCreates(hash, run, events, 0, 0);
    assert run[5].tx.pushes == map[];
  }

  /** A job is queued, and a second push on its branch has read it as queued. */
  lemma QueueOneAndRead(hash: string -> int, b: Branch, sha: string, sha': string)
    returns (run: seq<State>, events: seq<Event>)
    ensures IsRun(hash, run, events) && |run| == 9
    ensures var s := run[8];
            && s.t == Tables(map[0 := NewJob(b, sha, "", 1)], map[])
            && s.tx == Transactions(map[LockKey(hash, b) := 0], map[0 := Push(b, sha', "", 2, Seen(Some(0)))])
            && s.log.claims == [] && s.log.accepted == map[b := sha] && s.log.newest == map[b := 0]
  {
    run, events := QueueOne(hash, b, sha);
    run, events := Extend(hash, run, events, Begin(0, b, sha', "", 2));
    run, events := Extend(hash, run, events, Lock(0));
    assert IsFirstQueuedOn(run[|run| - 1].t.jobs, b, 0);
    run, events := Extend(hash, run, events, Read(0, Some(0)));
  }

  /**
   The poller's failure write is unguarded: a poller claims the job, a worker completes it, and the poller,
   whose repository lookup failed meanwhile, overwrites the verdict. The job changes status three times.
   */
  lemma PollerOverturnsVerdict(hash: string -> int, b: Branch, sha: string)
    returns (run: seq<State>, events: seq<Event>)
    ensures IsRun(hash, run, events) && |run| == 9
    ensures 0 in run[7].t.jobs && run[7].t.jobs[0].status == Succeeded
    ensures 0 in run[8].t.jobs && run[8].t.jobs[0].status == Failed
    ensures OwnsSnapshot(run[8].t, 0, SnapshotKeyOf(run[8].t.jobs[0]))
  {
    run, events := QueueOne(hash, b, sha);
    run, events := Extend(hash, run, events, Act(Claim(0, 2)));
    run, events := Extend(hash, run, events, Act(Complete(0, CompleteRequest(true, "", "path", "1", 1), 3)));
    run, events := Extend(hash, run, events, Act(PollerFail(0, 4)));
  }
}
