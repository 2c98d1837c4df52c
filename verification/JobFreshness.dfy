/** When the job created last on a branch carries the sha of the last accepted push, and the runs where it does not. */
module JobFreshness {
  import opened Wrappers
  import opened JobTables
  import opened JobLifecycle
  import opened JobInvariants
  import opened JobHistory
  import opened JobTheorems
  import opened JobScenarios

  /** The sha the job created last on a branch now carries. */
  ghost predicate NewestCarries(s: State, b: Branch, sha: string) {
    b in s.log.newest && s.log.newest[b] in s.t.jobs && s.t.jobs[s.log.newest[b]].sha == sha
  }

  ghost predicate HasTarget(push: Push) {
    push.stage.Updating? || (push.stage.Seen? && push.stage.target.Some?)
  }

  ghost predicate TargetsKnown(s: State) {
    forall p :: p in s.tx.pushes && HasTarget(s.tx.pushes[p]) ==> s.tx.pushes[p].on in s.log.newest
  }

  lemma StepKeepsTargetsKnown(hash: string -> int, s: State, e: Event)
    requires CoreInv(hash, s) && TargetsKnown(s) && Enabled(hash, s, e)
    ensures TargetsKnown(Apply(hash, s, e))
  {
    if e.Act? {
      RecordKeepsQueueLog(s.log, s.t, e.act);
    }
  }

  lemma {:induction false} RunKeepsTargetsKnown(hash: string -> int, run: seq<State>, events: seq<Event>, i: nat)
    requires IsRun(hash, run, events) && i < |run|
    ensures TargetsKnown(run[i])
  {
    if i > 0 {
      RunKeepsTargetsKnown(hash, run, events, i - 1);
      RunKeepsInvariants(hash, run, events, i - 1);
      assert Next(hash, run[i - 1], events[i - 1], run[i - 1 + 1]);
      StepKeepsTargetsKnown(hash, run[i - 1], events[i - 1]);
    }
  }

  /**
   Exactly when an accepted push is visible in the newest job of its branch: it created that job, its
   update found the row still queued, or the row already carried the sha.
   */
  lemma PublishedExactlyWhen(hash: string -> int, run: seq<State>, events: seq<Event>, i: nat, p: PushId)
    requires IsRun(hash, run, events) && i < |events| && events[i] == Commit(p)
    ensures p in run[i].tx.pushes
    ensures var push := run[i].tx.pushes[p];
            NewestCarries(run[i + 1], push.on, push.sha)
            <==> push.stage.Creating? || (push.stage.Updating? && push.stage.hit)
                 || NewestCarries(run[i], push.on, push.sha)
  {
    RunKeepsInvariants(hash, run, events, i);
    RunKeepsInvariants(hash, run, events, i + 1);
    RunKeepsTargetsKnown(hash, run, events, i);
    assert Next(hash, run[i], events[i], run[i + 1]);
  }

  // -- The window between a push's read and its guarded update --

  /** A step that takes a queued job out of the queue: a claim, a Start, or a Complete that is recorded. */
  predicate Takes(t: Tables, e: Event, id: JobId) {
    e.Act? &&
    match e.act
    case Claim(x, _) => x == id
    case Start(x, _) => x == id
    case Complete(x, req, _) => x == id && CompleteReplyOf(t, id, req).Recorded?
    case _ => false
  }

  lemma ActionTakes(t: Tables, locked: set<JobId>, claiming: set<JobId>, a: Action, id: JobId)
    requires CanAct(t.jobs, locked, claiming, a) && IsQueued(t.jobs, id)
    requires forall o :: o in claiming ==> o in t.jobs && t.jobs[o].status != Queued
    ensures IsQueued(ActOn(t, a).jobs, id) <==> !Takes(t, Act(a), id)
  {
    if a.Timeout? {
      assert ActOn(t, a).jobs == TimeoutAll(t.jobs, a.at);
    }
  }

  lemma LeavesQueueExactlyWhen(hash: string -> int, s: State, e: Event, id: JobId)
    requires CoreInv(hash, s) && HistoryInv(s) && Enabled(hash, s, e) && IsQueued(s.t.jobs, id)
    ensures IsQueued(Apply(hash, s, e).t.jobs, id) <==> !Takes(s.t, e, id)
  {
    if e.Act? {
      ActionTakes(s.t, RowLocks(s.tx.pushes), s.claiming, e.act, id);
    } else if e.Commit? {
      assert StageOk(s.t.jobs, s.tx.pushes[e.p]);
    }
  }

  lemma RunStepQueued(hash: string -> int, run: seq<State>, events: seq<Event>, id: JobId, i: nat)
    requires IsRun(hash, run, events) && i < |events| && id in run[i].t.jobs
    ensures IsQueued(run[i + 1].t.jobs, id) <==> IsQueued(run[i].t.jobs, id) && !Takes(run[i].t, events[i], id)
  {
    var s, e, s' := run[i], events[i], run[i + 1];
    RunStepPersists(hash, run, events, i, id);
    if IsQueued(s.t.jobs, id) {
      RunKeepsInvariants(hash, run, events, i);
      assert Next(hash, s, e, s');
      LeavesQueueExactlyWhen(hash, s, e, id);
    }
  }

  ghost predicate NothingTakes(run: seq<State>, events: seq<Event>, id: JobId, i: nat, k: nat)
    requires k <= |events| < |run|
  {
    forall m :: i <= m < k ==> !Takes(run[m].t, events[m], id)
  }

  /** A queued job is still queued later exactly when no claim, Start or recorded Complete of it lies in between. */
  lemma {:induction false} QueuedUntilTaken(
    hash: string -> int, run: seq<State>, events: seq<Event>, id: JobId, i: nat, k: nat)
    requires IsRun(hash, run, events) && i <= k < |run| && IsQueued(run[i].t.jobs, id)
    ensures IsQueued(run[k].t.jobs, id) <==> NothingTakes(run, events, id, i, k)
    decreases k
  {
    if i < k {
      QueuedUntilTaken(hash, run, events, id, i, k - 1);
      FrozenForever(hash, run, events, i, k - 1, id);
      RunStepQueued(hash, run, events, id, k - 1);
    }
  }

  ghost predicate HasSeen(s: State, p: PushId, target: Option<JobId>) {
    p in s.tx.pushes && s.tx.pushes[p].stage == Seen(target)
  }

  /** Push `p` reads `target` at step `i` and makes its write at step `j`. */
  ghost predicate IsWindow(run: seq<State>, events: seq<Event>, p: PushId, target: Option<JobId>, i: nat, j: nat)
    requires |run| == |events| + 1
  {
    && i < j < |events| && events[i] == Read(p, target) && events[j].Write? && events[j].p == p
    && forall k :: i < k <= j ==> HasSeen(run[k], p, target)
  }

  lemma SeenStep(hash: string -> int, s: State, e: Event, p: PushId, target: Option<JobId>)
    requires Enabled(hash, s, e) && HasSeen(Apply(hash, s, e), p, target)
    ensures HasSeen(s, p, target) || e == Read(p, target)
  {
  }

  lemma {:induction false} SeenSince(
    hash: string -> int, run: seq<State>, events: seq<Event>, p: PushId, target: Option<JobId>, n: nat)
    returns (i: nat)
    requires IsRun(hash, run, events) && n < |run| && HasSeen(run[n], p, target)
    ensures i < n && events[i] == Read(p, target) && forall k :: i < k <= n ==> HasSeen(run[k], p, target)
  {
    assert n > 0;
    assert HasSeen(run[n - 1], p, target) || events[n - 1] == Read(p, target) by {
      assert Next(hash, run[n - 1], events[n - 1], run[n - 1 + 1]);
      SeenStep(hash, run[n - 1], events[n - 1], p, target);
    }
    if events[n - 1] == Read(p, target) {
      i := n - 1;
    } else {
      i := SeenSince(hash, run, events, p, target, n - 1);
    }
  }

  /**
   A guarded update finds its row still queued exactly when no claim, Start or recorded Complete of the row
   falls between the push's read and its update.
   */
  lemma UpdateHitsExactlyWhen(
    hash: string -> int, run: seq<State>, events: seq<Event>, p: PushId, id: JobId, i: nat, j: nat)
    requires IsRun(hash, run, events) && IsWindow(run, events, p, Some(id), i, j)
    ensures IsQueued(run[j].t.jobs, id) <==> NothingTakes(run, events, id, i, j)
    ensures HasUpdated(run[j + 1], p, id, NothingTakes(run, events, id, i, j))
  {
    assert Next(hash, run[i], events[i], run[i + 1]);
    QueuedUntilTaken(hash, run, events, id, i, j);
    assert HasSeen(run[j], p, Some(id));
    assert Next(hash, run[j], events[j], run[j + 1]);
  }

  ghost predicate HasUpdated(s: State, p: PushId, id: JobId, hit: bool) {
    p in s.tx.pushes && s.tx.pushes[p].stage == Updating(id, hit)
  }

  /** No window of the run has such a step in it. */
  ghost predicate WindowsAreQuiet(run: seq<State>, events: seq<Event>)
    requires |run| == |events| + 1
  {
    forall p, id, i, j :: IsWindow(run, events, p, Some(id), i, j) ==> NothingTakes(run, events, id, i, j)
  }

  lemma QuietWritesHit(hash: string -> int, run: seq<State>, events: seq<Event>, j: nat)
    requires IsRun(hash, run, events) && WindowsAreQuiet(run, events) && j < |events| && events[j].Write?
    ensures events[j].p in run[j].tx.pushes && UpdateWillHit(run[j], events[j].p)
  {
    assert Next(hash, run[j], events[j], run[j + 1]);
    var p := events[j].p;
    var target := run[j].tx.pushes[p].stage.target;
    if target.Some? {
      assert HasSeen(run[j], p, target);
      var i := SeenSince(hash, run, events, p, target, j);
      assert IsWindow(run, events, p, Some(target.value), i, j);
      UpdateHitsExactlyWhen(hash, run, events, p, target.value, i, j);
    }
  }

  ghost predicate UpdateWillHit(s: State, p: PushId)
    requires p in s.tx.pushes
  {
    var stage := s.tx.pushes[p].stage;
    stage.Seen? && stage.target.Some? ==> IsQueued(s.t.jobs, stage.target.value)
  }

  ghost predicate AllHit(s: State) {
    && (forall p :: p in s.tx.pushes && s.tx.pushes[p].stage.Updating? ==> s.tx.pushes[p].stage.hit)
    && s.log.accepted == s.log.effective
  }

  lemma StepKeepsAllHit(hash: string -> int, s: State, e: Event)
    requires AllHit(s) && Enabled(hash, s, e) && (e.Write? ==> UpdateWillHit(s, e.p))
    ensures AllHit(Apply(hash, s, e))
  {
    if e.Act? {
      RecordKeepsQueueLog(s.log, s.t, e.act);
    }
  }

  /** With quiet windows the job created last on every branch carries the sha of the last accepted push. */
  lemma {:induction false} NewestIsLastPush(hash: string -> int, run: seq<State>, events: seq<Event>, i: nat)
    requires IsRun(hash, run, events) && WindowsAreQuiet(run, events) && i < |run|
    ensures AllHit(run[i])
    ensures forall b :: b in run[i].log.accepted ==> NewestCarries(run[i], b, run[i].log.accepted[b])
  {
    if i > 0 {
      NewestIsLastPush(hash, run, events, i - 1);
      assert AllHit(run[i]) by {
        if events[i - 1].Write? {
          QuietWritesHit(hash, run, events, i - 1);
        }
        assert Next(hash, run[i - 1], events[i - 1], run[i - 1 + 1]);
        StepKeepsAllHit(hash, run[i - 1], events[i - 1]);
      }
    }
    assert QueueOk(run[i].t.jobs, run[i].log) by {
      RunKeepsInvariants(hash, run, events, i);
    }
  }

  /**
   An interleaving that breaks it: the job is claimed after the push has read it as queued and before the
   guarded update, which then matches no row. The push is accepted and its sha is nowhere.
   */
  lemma ClaimInWindowLosesPush(hash: string -> int, b: Branch, sha: string, sha': string)
    returns (run: seq<State>, events: seq<Event>)
    requires sha != sha'
    ensures IsRun(hash, run, events) && |run| == 12
    ensures b in run[11].log.accepted && run[11].log.accepted[b] == sha'
    ensures NewestCarries(run[11], b, sha)
    ensures forall id :: id in run[11].t.jobs ==> run[11].t.jobs[id].sha != sha'
  {
    run, events := QueueOneAndRead(hash, b, sha, sha');
    run, events := Extend(hash, run, events, Act(Claim(0, 3)));
    assert run[9].t.jobs == map[0 := Claimed(NewJob(b, sha, "", 1), 3)];
    run, events := Extend(hash, run, events, Write(0, 1));
    assert run[10].tx.pushes == map[0 := Push(b, sha', "", 2, Updating(0, false))];
    run, events := Extend(hash, run, events, Commit(0));
  }

  /** The same without any poller: the worker's Start callback for the job falls in the window. */
  lemma StartInWindowLosesPush(hash: string -> int, b: Branch, sha: string, sha': string)
    returns (run: seq<State>, events: seq<Event>)
    requires sha != sha'
    ensures IsRun(hash, run, events) && |run| == 12 && run[11].log.claims == []
    ensures b in run[11].log.accepted && run[11].log.accepted[b] == sha'
    ensures NewestCarries(run[11], b, sha)
    ensures forall id :: id in run[11].t.jobs ==> run[11].t.jobs[id].sha != sha'
  {
    run, events := QueueOneAndRead(hash, b, sha, sha');
    run, events := Extend(hash, run, events, Act(Start(0, 3)));
    run, events := Extend(hash, run, events, Write(0, 1));
    run, events := Extend(hash, run, events, Commit(0));
  }
}
