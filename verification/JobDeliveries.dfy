/** What a webhook's delivery id guarantees: one job per delivery, but not one effect per delivery. */
module JobDeliveries {
  import opened Wrappers
  import opened JobTables
  import opened JobLifecycle
  import opened JobInvariants
  import opened JobHistory
  import opened JobScenarios
  import opened JobService

  predicate IsFrom(jobs: Jobs, id: JobId, delivery: string) {
    id in jobs && jobs[id].delivery == Some(delivery)
  }

  predicate IsInserting(pushes: map<PushId, Push>, p: PushId, delivery: string) {
    p in pushes && pushes[p].stage.Creating? && pushes[p].delivery == delivery && delivery != ""
  }

  /** Every delivery id is on at most one row, committed or still being inserted. */
  ghost predicate DeliveriesOk(jobs: Jobs, pushes: map<PushId, Push>) {
    && (forall x, y, d :: IsFrom(jobs, x, d) && IsFrom(jobs, y, d) ==> x == y)
    && (forall p, q, d :: IsInserting(pushes, p, d) && IsInserting(pushes, q, d) ==> p == q)
    && (forall p, x, d :: IsInserting(pushes, p, d) ==> !IsFrom(jobs, x, d))
  }

  lemma CommitKeepsDeliveries(jobs: Jobs, pushes: map<PushId, Push>, p: PushId)
    requires DeliveriesOk(jobs, pushes) && p in pushes && CanCommit(pushes[p]) && StageOk(jobs, pushes[p])
    ensures DeliveriesOk(CommitJobs(jobs, pushes[p]), pushes - {p})
  {
    var push := pushes[p];
    var jobs', pushes' := CommitJobs(jobs, push), pushes - {p};
    forall x, d ensures IsFrom(jobs', x, d)
                        <==> IsFrom(jobs, x, d) || (IsInserting(pushes, p, d) && push.stage.id == x)
    {
    }
    forall q, d ensures IsInserting(pushes', q, d) <==> q != p && IsInserting(pushes, q, d) {
    }
  }

  lemma StepKeepsDeliveries(hash: string -> int, s: State, e: Event)
    requires CoreInv(hash, s) && DeliveriesOk(s.t.jobs, s.tx.pushes) && Enabled(hash, s, e)
    ensures DeliveriesOk(Apply(hash, s, e).t.jobs, Apply(hash, s, e).tx.pushes)
  {
    var s' := Apply(hash, s, e);
    match e
    case Act(a) =>
      ActionKeepsCore(hash, s, a);
      forall x, d ensures IsFrom(s'.t.jobs, x, d) <==> IsFrom(s.t.jobs, x, d) {
      }
    case Commit(p) =>
      assert StageOk(s.t.jobs, s.tx.pushes[p]);
      CommitKeepsDeliveries(s.t.jobs, s.tx.pushes, p);
    case Write(p, row) => WriteKeepsDeliveries(hash, s, p, row);
    case _ =>
      forall q, d ensures IsInserting(s'.tx.pushes, q, d) ==> IsInserting(s.tx.pushes, q, d) {
      }
  }

  lemma WriteKeepsDeliveries(hash: string -> int, s: State, p: PushId, row: JobId)
    requires DeliveriesOk(s.t.jobs, s.tx.pushes) && Enabled(hash, s, Write(p, row))
    ensures DeliveriesOk(s.t.jobs, Apply(hash, s, Write(p, row)).tx.pushes)
  {
    var push, pushes' := s.tx.pushes[p], Apply(hash, s, Write(p, row)).tx.pushes;
    forall q, d ensures IsInserting(pushes', q, d) ==> IsInserting(s.tx.pushes, q, d) || (q == p && d == push.delivery) {
    }
    if push.stage.target.None? && push.delivery != "" && !DeliveryTaken(s.t.jobs, push.delivery) {
      forall x ensures !IsFrom(s.t.jobs, x, push.delivery) {
      }
      forall q ensures !IsInserting(s.tx.pushes, q, push.delivery) {
      }
    }
  }

  /** In every state of every run a delivery id is on at most one job. */
  lemma {:induction false} OneJobPerDelivery(hash: string -> int, run: seq<State>, events: seq<Event>, i: nat)
    requires IsRun(hash, run, events) && i < |run|
    ensures DeliveriesOk(run[i].t.jobs, run[i].tx.pushes)
  {
    if i > 0 {
      OneJobPerDelivery(hash, run, events, i - 1);
      assert DeliveriesOk(run[i].t.jobs, run[i].tx.pushes) by {
        RunKeepsInvariants(hash, run, events, i - 1);
        assert Next(hash, run[i - 1], events[i - 1], run[i - 1 + 1]);
        StepKeepsDeliveries(hash, run[i - 1], events[i - 1]);
      }
    }
  }

  /**
   A push whose delivery id is on a job already has nothing to insert when it commits, and leaves the tables as they
   are exactly when its update missed or the row carries the sha already: the update does not look at the id.
   */
  lemma RedeliveryIsNoOpExactlyWhen(hash: string -> int, run: seq<State>, events: seq<Event>, i: nat, p: PushId)
    requires IsRun(hash, run, events) && i < |events| && events[i] == Commit(p) && p in run[i].tx.pushes
    requires DeliveryTaken(run[i].t.jobs, run[i].tx.pushes[p].delivery)
    ensures var push := run[i].tx.pushes[p];
            && push.stage.Updating? && push.stage.id in run[i].t.jobs
            && (run[i + 1].t == run[i].t <==> !push.stage.hit || run[i].t.jobs[push.stage.id].sha == push.sha)
  {
    var push, jobs := run[i].tx.pushes[p], run[i].t.jobs;
    assert StageOk(jobs, push) && CanCommit(push) && run[i + 1].t == run[i].t.(jobs := CommitJobs(jobs, push)) by {
      RunKeepsInvariants(hash, run, events, i);
      assert Next(hash, run[i], events[i], run[i + 1]);
    }
    var x :| x in jobs && jobs[x].delivery == Some(push.delivery);
    assert IsFrom(jobs, x, push.delivery) && !IsInserting(run[i].tx.pushes, p, push.delivery) by {
      OneJobPerDelivery(hash, run, events, i);
    }
    UpdateIsNoOpExactlyWhen(jobs, push);
  }

  lemma UpdateIsNoOpExactlyWhen(jobs: Jobs, push: Push)
    requires push.stage.Updating? && StageOk(jobs, push)
    ensures CommitJobs(jobs, push) == jobs <==> !push.stage.hit || jobs[push.stage.id].sha == push.sha
  {
    var id, jobs' := push.stage.id, CommitJobs(jobs, push);
    if push.stage.hit && jobs[id].sha == push.sha {
      assert jobs' == jobs;
    }
    assert push.stage.hit ==> jobs'[id].sha == push.sha;
  }

  /**
   With nobody in between, such a push changes nothing exactly when the branch has no queued job or its queued job
   carries the sha already.
   */
  lemma UndisturbedRedeliveryIsNoOpExactlyWhen(
    before: Jobs, after: Jobs, b: Branch, sha: string, delivery: string, row: JobId, began: int, r: PushResult)
    requires PushEffect(before, after, b, sha, delivery, row, began, r) && !r.Unregistered?
    requires DeliveryTaken(before, delivery)
    requires forall x, y :: IsQueuedOn(before, b, x) && IsQueuedOn(before, b, y) ==> x == y
    ensures after == before <==> forall id :: IsQueuedOn(before, b, id) ==> before[id].sha == sha
  {
    if r.Updated? {
      assert IsQueuedOn(before, b, r.id);
      assert after == before[r.id := before[r.id].(sha := sha)];
      if before[r.id].sha == sha {
        assert after == before;
      } else {
        assert after[r.id] != before[r.id];
      }
    }
  }

  /**
   So a redelivered push can undo a later one: a job is queued for `sha`, a second push moves it to `sha'`, and
   the first push delivered again, its id being taken, moves it back and is the last accepted.
   */
  lemma RedeliveryRewinds(hash: string -> int, b: Branch, sha: string, sha': string)
    returns (run: seq<State>, events: seq<Event>)
    ensures IsRun(hash, run, events) && |run| == 16
    ensures IsQueuedOn(run[10].t.jobs, b, 0) && run[10].t.jobs[0].sha == sha' && DeliveryTaken(run[10].t.jobs, "first")
    ensures IsQueuedOn(run[15].t.jobs, b, 0) && run[15].t.jobs[0].sha == sha
    ensures b in run[15].log.accepted && run[15].log.accepted[b] == sha
  {
    run, events := Extend(hash, [EmptyState()], [], Begin(0, b, sha, "first", 1));
    run, events := PushCreates(hash, run, events, 0, 0);
    run, events := NextPush(hash, run, events, b, sha', "second", 2);
    assert DeliveryTaken(run[10].t.jobs, "first") by {
      assert run[10].t.jobs[0].delivery == Some("first");
    }
    var run', events' := NextPush(hash, run, events, b, sha, "first", 3);
    assert run'[10] == run[10];
    run, events := run', events';
  }

  /** With one queued job and nothing in flight, a whole push that updates it. */
  lemma NextPush(
    hash: string -> int, run: seq<State>, events: seq<Event>, b: Branch, sha: string, delivery: string, at: int)
    returns (run': seq<State>, events': seq<Event>)
    requires IsRun(hash, run, events)
    requires var s := run[|events|];
             && s.tx == Transactions(map[], map[]) && IsQueuedOn(s.t.jobs, b, 0)
             && forall id :: id in s.t.jobs ==> id == 0
    ensures IsRun(hash, run', events') && |run'| == |run| + 5 && run <= run'
    ensures var s, s' := run[|events|], run'[|events'|];
            && s'.tx == s.tx && s'.t.jobs == s.t.jobs[0 := s.t.jobs[0].(sha := sha)]
            && b in s'.log.accepted && s'.log.accepted[b] == sha
  {
    run', events' := Extend(hash, run, events, Begin(0, b, sha, delivery, at));
    var mid := run'[|events'|];
    assert IsFirstQueuedOn(mid.t.jobs, b, 0);
    var run'', events'' := PushUpdates(hash, run', events', 0, 0);
    assert run''[|events''|].tx.pushes == map[];
    run', events' := run'', events'';
  }
}
