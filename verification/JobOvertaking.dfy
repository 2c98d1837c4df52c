/**
 When a claim passes over an older job. ClaimJob skips locked rows, so a push that is updating a job's sha hides
 the job from the pollers until it commits.
 */
module JobOvertaking {
  import opened Wrappers
  import opened Sets
  import opened JobTables
  import opened JobLifecycle
  import opened JobScenarios
  import opened JobFairness

  predicate IsFree(jobs: Jobs, locked: set<JobId>, id: JobId) {
    IsQueued(jobs, id) && id !in locked
  }

  /** Claim(id) may be the next claim, and job `o` is older. */
  ghost predicate Overtakes(jobs: Jobs, locked: set<JobId>, id: JobId, o: JobId)
    requires IsQueued(jobs, o)
  {
    IsClaimable(jobs, locked, id) && jobs[o].createdAt < jobs[id].createdAt
  }

  /**
   A queued job can be overtaken exactly when its row is locked, some other queued row is free, and all the
   free ones are younger.
   */
  lemma OvertakenExactlyWhen(jobs: Jobs, locked: set<JobId>, o: JobId)
    requires IsQueued(jobs, o)
    ensures (exists id :: Overtakes(jobs, locked, id, o))
            <==> && o in locked && (exists id :: IsFree(jobs, locked, id))
                 && forall id :: IsFree(jobs, locked, id) ==> jobs[o].createdAt < jobs[id].createdAt
  {
    if id :| Overtakes(jobs, locked, id, o) {
      assert IsFree(jobs, locked, id);
    }
    if o in locked && (exists id :: IsFree(jobs, locked, id))
       && forall id :: IsFree(jobs, locked, id) ==> jobs[o].createdAt < jobs[id].createdAt {
      var free := set id | id in jobs && IsFree(jobs, locked, id);
      var some :| IsFree(jobs, locked, some);
      assert some in free;
      var id := LeastExists(free, x => if x in jobs then jobs[x].createdAt else 0);
      assert forall x :: IsQueued(jobs, x) && x !in locked ==> x in free;
      assert Overtakes(jobs, locked, id, o);
    }
  }

  // -- Any number of claims can overtake --

  function BranchAt(k: nat): (b: Branch)
    ensures |b.name| == k
  {
    Branch("repo", seq(k, _ => 'x'))
  }

  function JobAt(k: nat): Job {
    NewJob(BranchAt(k), "", "", k + 1)
  }

  /** Jobs 0 to n - 1, each on its own branch, oldest first. */
  function Line(n: nat): Jobs {
    map k: nat | k < n :: JobAt(k)
  }

  lemma {:induction false} QueueMany(hash: string -> int, n: nat) returns (run: seq<State>, events: seq<Event>)
    ensures IsRun(hash, run, events)
    ensures var s := run[|events|];
            s.t == Tables(Line(n), map[]) && s.tx == Transactions(map[], map[]) && s.claiming == {}
  {
    if n == 0 {
      run, events := [EmptyState()], [];
    } else {
      run, events := QueueMany(hash, n - 1);
      run, events := Extend(hash, run, events, Begin(0, BranchAt(n - 1), "", "", n));
      var s := run[|events|];
      var b := BranchAt(n - 1);
      forall id ensures !IsQueuedOn(s.t.jobs, b, id) {
        assert id in s.t.jobs ==> |s.t.jobs[id].on.name| == id;
      }
      run, events := PushCreates(hash, run, events, 0, n - 1);
      assert run[|events|].t.jobs == Line(n);
      assert run[|events|].tx.pushes == map[];
    }
  }

  /** A push holds the row of job 0. */
  function Holding(n: nat): map<PushId, Push> {
    map[0 := Push(BranchAt(0), "new", "", n + 1, Updating(0, true))]
  }

  lemma QueueManyAndHold(hash: string -> int, n: nat) returns (run: seq<State>, events: seq<Event>)
    requires n > 0
    ensures IsRun(hash, run, events)
    ensures var s := run[|events|]; s.t == Tables(Line(n), map[]) && s.tx.pushes == Holding(n)
  {
    run, events := QueueMany(hash, n);
    run, events := Extend(hash, run, events, Begin(0, BranchAt(0), "new", "", n + 1));
    run, events := Extend(hash, run, events, Lock(0));
    var s := run[|events|];
    forall o | IsQueuedOn(s.t.jobs, BranchAt(0), o) ensures o == 0 {
      assert |s.t.jobs[o].on.name| == o;
    }
    assert IsFirstQueuedOn(s.t.jobs, BranchAt(0), 0);
    run, events := Extend(hash, run, events, Read(0, Some(0)));
    run, events := Extend(hash, run, events, Write(0, 0));
    assert run[|events|].tx.pushes == Holding(n);
  }

  /** The line after jobs 1 to c have been claimed. */
  function ClaimedLine(n: nat, c: nat): Jobs {
    map k: nat | k < n :: if 1 <= k <= c then Claimed(JobAt(k), k) else JobAt(k)
  }

  lemma NextIsClaimable(n: nat, c: nat)
    requires c + 1 < n
    ensures IsClaimable(ClaimedLine(n, c), {0}, c + 1)
    ensures ClaimedLine(n, c)[c + 1 := Claimed(JobAt(c + 1), c + 1)] == ClaimedLine(n, c + 1)
  {
    var jobs := ClaimedLine(n, c);
    forall o: JobId | IsQueued(jobs, o) && o != 0 ensures c + 1 <= o && jobs[o].createdAt == o + 1 {
    }
  }

  lemma NextInLine(hash: string -> int, s: State, n: nat, c: nat)
    requires c + 1 < n && s.t.jobs == ClaimedLine(n, c) && s.tx.pushes == Holding(n)
    ensures Enabled(hash, s, Act(Claim(c + 1, c + 1)))
    ensures Apply(hash, s, Act(Claim(c + 1, c + 1))).t.jobs == ClaimedLine(n, c + 1)
  {
    assert RowLocks(s.tx.pushes) == {0} by {
      assert Holding(n)[0].stage.id == 0;
    }
    NextIsClaimable(n, c);
    assert s.t.jobs[c + 1] == JobAt(c + 1);
  }

  /** At step `m` the line is whole and job 0 is held; the steps after it are the claims of jobs 1 to c. */
  ghost predicate HasClaimed(run: seq<State>, events: seq<Event>, m: nat, n: nat, c: nat) {
    && |run| == |events| + 1 && |events| == m + c
    && run[m].t.jobs == Line(n)
    && run[|events|].t.jobs == ClaimedLine(n, c) && run[|events|].tx.pushes == Holding(n)
    && forall j :: m <= j < |events| ==> events[j] == Act(Claim(j - m + 1, j - m + 1))
  }

  lemma ClaimNext(hash: string -> int, run: seq<State>, events: seq<Event>, m: nat, n: nat, c: nat)
    returns (run': seq<State>, events': seq<Event>)
    requires c + 1 < n && IsRun(hash, run, events) && HasClaimed(run, events, m, n, c)
    ensures IsRun(hash, run', events') && HasClaimed(run', events', m, n, c + 1)
  {
    NextInLine(hash, run[|events|], n, c);
    run', events' := Extend(hash, run, events, Act(Claim(c + 1, c + 1)));
    assert run'[m] == run[m];
  }

  lemma {:induction false} ClaimMany(hash: string -> int, n: nat, c: nat)
    returns (run: seq<State>, events: seq<Event>, m: nat)
    requires c < n
    ensures IsRun(hash, run, events) && HasClaimed(run, events, m, n, c)
  {
    if c == 0 {
      run, events := QueueManyAndHold(hash, n);
      m := |events|;
      assert Line(n) == ClaimedLine(n, 0);
    } else {
      run, events, m := ClaimMany(hash, n, c - 1);
      run, events := ClaimNext(hash, run, events, m, n, c - 1);
    }
  }

  /**
   There is no bound on the claims that pass over a job whose row is locked: for every n some run has n claims
   in a row, each taking a job younger than job 0, which is queued before and after all of them.
   */
  lemma AnyNumberOvertake(hash: string -> int, n: nat)
    returns (run: seq<State>, events: seq<Event>, m: nat)
    ensures IsRun(hash, run, events) && |events| == m + n
    ensures IsQueued(run[m].t.jobs, 0) && IsQueued(run[|events|].t.jobs, 0)
    ensures forall j :: m <= j < |events| ==>
              && IsClaimStep(events[j]) && events[j].act.id in run[m].t.jobs
              && run[m].t.jobs[0].createdAt < run[m].t.jobs[events[j].act.id].createdAt
  {
    run, events, m := ClaimMany(hash, n + 1, n);
  }
}
