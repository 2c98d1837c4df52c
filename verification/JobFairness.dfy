/**
 How long a queued job waits: a claim takes an oldest job whose row is not locked, so the claims that can pass
 a job by while its row is free are bounded.
 */
module JobFairness {
  import opened Sets
  import opened JobTables
  import opened JobLifecycle
  import opened JobInvariants
  import opened JobHistory
  import opened JobTheorems

  /** The queued jobs created no later than time `c`. */
  ghost function QueuedBy(jobs: Jobs, c: int): set<JobId> {
    set id | id in jobs && jobs[id].status == Queued && jobs[id].createdAt <= c
  }

  /** The in-flight pushes begun no later than time `c`: each may still insert one row dated no later. */
  ghost function BegunBy(pushes: map<PushId, Push>, c: int): set<PushId> {
    set p | p in pushes && pushes[p].began <= c
  }

  ghost function Ahead(s: State, c: int): nat {
    |QueuedBy(s.t.jobs, c)| + |BegunBy(s.tx.pushes, c)|
  }

  lemma ActionsShrinkQueue(hash: string -> int, s: State, a: Action, c: int)
    requires CoreInv(hash, s) && Enabled(hash, s, Act(a))
    ensures QueuedBy(ActOn(s.t, a).jobs, c) <= QueuedBy(s.t.jobs, c)
  {
    ActionKeepsCore(hash, s, a);
  }

  lemma CommitQueue(jobs: Jobs, push: Push, c: int)
    requires CanCommit(push) && StageOk(jobs, push)
    ensures QueuedBy(CommitJobs(jobs, push), c)
            == QueuedBy(jobs, c) + if push.stage.Creating? && push.began <= c then {push.stage.id} else {}
  {
    var jobs' := CommitJobs(jobs, push);
    if push.stage.Updating? {
      forall id ensures id in QueuedBy(jobs', c) <==> id in QueuedBy(jobs, c) {
      }
    }
  }

  lemma CommitKeepsAhead(hash: string -> int, s: State, p: PushId, c: int)
    requires CoreInv(hash, s) && Enabled(hash, s, Commit(p))
    ensures Ahead(Apply(hash, s, Commit(p)), c) <= Ahead(s, c)
  {
    var push := s.tx.pushes[p];
    assert StageOk(s.t.jobs, push);
    CommitQueue(s.t.jobs, push, c);
    FinishDropsOne(hash, s.tx, p, c);
  }

  lemma FinishDropsOne(hash: string -> int, tx: Transactions, p: PushId, c: int)
    requires p in tx.pushes
    ensures |BegunBy(Finish(hash, tx, p).pushes, c)| == |BegunBy(tx.pushes, c)| - if tx.pushes[p].began <= c then 1 else 0
  {
    assert BegunBy(Finish(hash, tx, p).pushes, c) == BegunBy(tx.pushes, c) - {p};
  }

  /** A push that begins, dated no later than time `c`. */
  predicate BeginsBy(e: Event, c: int) {
    e.Begin? && e.at <= c
  }

  lemma PushStepKeepsBegun(hash: string -> int, s: State, e: Event, c: int)
    requires Enabled(hash, s, e) && !e.Commit? && !e.Act?
    ensures BegunBy(Apply(hash, s, e).tx.pushes, c)
            <= BegunBy(s.tx.pushes, c) + if BeginsBy(e, c) then {e.p} else {}
  {
  }

  /** Only a push that begins dated no later than `c` adds to what is ahead of a job created at time `c`. */
  lemma StepKeepsAhead(hash: string -> int, s: State, e: Event, c: int)
    requires CoreInv(hash, s) && Enabled(hash, s, e)
    ensures Ahead(Apply(hash, s, e), c) <= Ahead(s, c) + if BeginsBy(e, c) then 1 else 0
  {
    var s' := Apply(hash, s, e);
    if e.Commit? {
      CommitKeepsAhead(hash, s, e.p, c);
    } else if e.Act? {
      ActionsShrinkQueue(hash, s, e.act, c);
      SubsetSize(QueuedBy(s'.t.jobs, c), QueuedBy(s.t.jobs, c));
    } else {
      PushStepKeepsBegun(hash, s, e, c);
      SubsetSize(BegunBy(s'.tx.pushes, c), BegunBy(s.tx.pushes, c) + if BeginsBy(e, c) then {e.p} else {});
    }
  }

  predicate IsClaimStep(e: Event) {
    e.Act? && e.act.Claim?
  }

  /** A claim made while job `id` could have been taken removes one of the jobs created no later than it. */
  lemma ClaimConsumesAhead(hash: string -> int, s: State, e: Event, id: JobId)
    requires CoreInv(hash, s) && Enabled(hash, s, e) && IsClaimStep(e)
    requires IsQueued(s.t.jobs, id) && id !in RowLocks(s.tx.pushes)
    ensures Ahead(Apply(hash, s, e), s.t.jobs[id].createdAt) < Ahead(s, s.t.jobs[id].createdAt)
  {
    var c := s.t.jobs[id].createdAt;
    assert e.act.id in QueuedBy(s.t.jobs, c);
    assert QueuedBy(Apply(hash, s, e).t.jobs, c) == QueuedBy(s.t.jobs, c) - {e.act.id};
  }

  /** How many of the steps from `i` to `k` are claims made while `id` was not row-locked by a push. */
  ghost function ClaimsPassing(run: seq<State>, events: seq<Event>, id: JobId, i: nat, k: nat): nat
    requires i <= k < |run| && |run| == |events| + 1
    decreases k
  {
    if i == k then 0
    else
      ClaimsPassing(run, events, id, i, k - 1) +
      if IsClaimStep(events[k - 1]) && id !in RowLocks(run[k - 1].tx.pushes) then 1 else 0
  }

  /** How many of the steps from `i` to `k` are claims made while `id` was row-locked by a push. */
  ghost function ClaimsSkipping(run: seq<State>, events: seq<Event>, id: JobId, i: nat, k: nat): nat
    requires i <= k < |run| && |run| == |events| + 1
    decreases k
  {
    if i == k then 0
    else
      ClaimsSkipping(run, events, id, i, k - 1) +
      if IsClaimStep(events[k - 1]) && id in RowLocks(run[k - 1].tx.pushes) then 1 else 0
  }

  /** How many of the steps from `i` to `k` are claims. */
  ghost function Claims(events: seq<Event>, i: nat, k: nat): nat
    requires i <= k <= |events|
    decreases k
  {
    if i == k then 0 else Claims(events, i, k - 1) + if IsClaimStep(events[k - 1]) then 1 else 0
  }

  lemma {:induction false} ClaimsAddUp(run: seq<State>, events: seq<Event>, id: JobId, i: nat, k: nat)
    requires i <= k < |run| && |run| == |events| + 1
    ensures Claims(events, i, k) == ClaimsPassing(run, events, id, i, k) + ClaimsSkipping(run, events, id, i, k)
    decreases k
  {
    if i < k {
      ClaimsAddUp(run, events, id, i, k - 1);
    }
  }

  /** How many of the steps from `i` to `k` are pushes that begin dated no later than `c`. */
  ghost function LateBegins(events: seq<Event>, c: int, i: nat, k: nat): nat
    requires i <= k <= |events|
    decreases k
  {
    if i == k then 0 else LateBegins(events, c, i, k - 1) + if BeginsBy(events[k - 1], c) then 1 else 0
  }

  lemma {:induction false} NoLateBegins(events: seq<Event>, c: int, i: nat, k: nat)
    requires i <= k <= |events| && forall j :: i <= j < k ==> !BeginsBy(events[j], c)
    ensures LateBegins(events, c, i, k) == 0
    decreases k
  {
    if i < k {
      NoLateBegins(events, c, i, k - 1);
    }
  }

  lemma {:induction false} WaitAddsUp(
    hash: string -> int, run: seq<State>, events: seq<Event>, id: JobId, i: nat, k: nat)
    requires IsRun(hash, run, events) && i <= k < |run|
    requires IsQueued(run[i].t.jobs, id) && IsQueued(run[k].t.jobs, id)
    ensures run[k].t.jobs[id].createdAt == run[i].t.jobs[id].createdAt
    ensures var c := run[i].t.jobs[id].createdAt;
            && ClaimsPassing(run, events, id, i, k) + Ahead(run[k], c) <= Ahead(run[i], c) + LateBegins(events, c, i, k)
            && ClaimsPassing(run, events, id, i, k) < Ahead(run[i], c) + LateBegins(events, c, i, k)
    decreases k
  {
    FrozenForever(hash, run, events, i, k, id);
    if i < k {
      StillQueued(hash, run, events, id, i, k);
      WaitAddsUp(hash, run, events, id, i, k - 1);
      OneMoreStep(hash, run, events, id, k - 1);
    }
    assert id in QueuedBy(run[k].t.jobs, run[i].t.jobs[id].createdAt);
  }

  /**
   Bounded waiting. While a job is still queued, the claims made number fewer than the queued jobs created no later
   than it (itself included), plus the in-flight pushes begun no later, plus the pushes that begin meanwhile and are
   dated no later, plus the claims made while an updating push held the job's row. All other pushes make no
   difference, however many arrive.
   */
  lemma BoundedWait(hash: string -> int, run: seq<State>, events: seq<Event>, id: JobId, i: nat, k: nat)
    requires IsRun(hash, run, events) && i <= k < |run|
    requires IsQueued(run[i].t.jobs, id) && IsQueued(run[k].t.jobs, id)
    ensures var c := run[i].t.jobs[id].createdAt;
            Claims(events, i, k)
            < Ahead(run[i], c) + LateBegins(events, c, i, k) + ClaimsSkipping(run, events, id, i, k)
  {
    WaitAddsUp(hash, run, events, id, i, k);
    ClaimsAddUp(run, events, id, i, k);
  }

  /** With increasing begin times, and no push holding the row as a claim is made, the bound is fixed at the start. */
  lemma BoundedWaitInOrder(hash: string -> int, run: seq<State>, events: seq<Event>, id: JobId, i: nat, k: nat)
    requires IsRun(hash, run, events) && i <= k < |run|
    requires IsQueued(run[i].t.jobs, id) && IsQueued(run[k].t.jobs, id)
    requires forall j :: i <= j < k ==> !BeginsBy(events[j], run[i].t.jobs[id].createdAt)
    requires forall j :: i <= j < k && IsClaimStep(events[j]) ==> id !in RowLocks(run[j].tx.pushes)
    ensures Claims(events, i, k) < Ahead(run[i], run[i].t.jobs[id].createdAt)
  {
    BoundedWait(hash, run, events, id, i, k);
    NoLateBegins(events, run[i].t.jobs[id].createdAt, i, k);
    NoneSkipping(run, events, id, i, k);
  }

  lemma {:induction false} NoneSkipping(run: seq<State>, events: seq<Event>, id: JobId, i: nat, k: nat)
    requires i <= k < |run| && |run| == |events| + 1
    requires forall j :: i <= j < k && IsClaimStep(events[j]) ==> id !in RowLocks(run[j].tx.pushes)
    ensures ClaimsSkipping(run, events, id, i, k) == 0
    decreases k
  {
    if i < k {
      NoneSkipping(run, events, id, i, k - 1);
    }
  }

  lemma StillQueued(hash: string -> int, run: seq<State>, events: seq<Event>, id: JobId, i: nat, k: nat)
    requires IsRun(hash, run, events) && i < k < |run|
    requires IsQueued(run[i].t.jobs, id) && IsQueued(run[k].t.jobs, id)
    ensures IsQueued(run[k - 1].t.jobs, id)
  {
    var before, after := run[k - 1].t.jobs, run[k].t.jobs;
    assert id in before by {
      FrozenForever(hash, run, events, i, k - 1, id);
    }
    assert Frozen(before[id], after[id]) by {
      FrozenForever(hash, run, events, k - 1, k, id);
    }
  }

  lemma OneMoreStep(hash: string -> int, run: seq<State>, events: seq<Event>, id: JobId, k: nat)
    requires IsRun(hash, run, events) && k < |events| && IsQueued(run[k].t.jobs, id)
    ensures var c := run[k].t.jobs[id].createdAt;
            var passed := if IsClaimStep(events[k]) && id !in RowLocks(run[k].tx.pushes) then 1 else 0;
            passed + Ahead(run[k + 1], c) <= Ahead(run[k], c) + if BeginsBy(events[k], c) then 1 else 0
  {
    RunKeepsInvariants(hash, run, events, k);
    assert Next(hash, run[k], events[k], run[k + 1]);
    StepKeepsAhead(hash, run[k], events[k], run[k].t.jobs[id].createdAt);
    if IsClaimStep(events[k]) && id !in RowLocks(run[k].tx.pushes) {
      ClaimConsumesAhead(hash, run[k], events[k], id);
    }
  }
}
