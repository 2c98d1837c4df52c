/** Who waits for whom: the advisory lock of a push is one per hash of its repository and branch, and is never left behind. */
module JobLocks {
  import opened JobLifecycle
  import opened JobInvariants
  import opened JobHistory

  /** Every lock is held by a push in flight that is past its lock step and has that key. */
  ghost predicate LocksHeld(hash: string -> int, tx: Transactions) {
    forall key :: key in tx.locks ==>
      && tx.locks[key] in tx.pushes && !tx.pushes[tx.locks[key]].stage.Waiting?
      && LockKey(hash, tx.pushes[tx.locks[key]].on) == key
  }

  lemma FinishKeepsHeld(hash: string -> int, tx: Transactions, p: PushId)
    requires HoldsLocks(hash, tx) && LocksHeld(hash, tx) && p in tx.pushes
    ensures LocksHeld(hash, Finish(hash, tx, p))
  {
    var tx' := Finish(hash, tx, p);
    forall key | key in tx'.locks
      ensures && tx'.locks[key] in tx'.pushes && !tx'.pushes[tx'.locks[key]].stage.Waiting?
              && LockKey(hash, tx'.pushes[tx'.locks[key]].on) == key
    {
      assert key in tx.locks && tx.locks[key] in tx.pushes;
    }
  }

  lemma StepKeepsHeld(hash: string -> int, s: State, e: Event)
    requires CoreInv(hash, s) && LocksHeld(hash, s.tx) && Enabled(hash, s, e)
    ensures LocksHeld(hash, Apply(hash, s, e).tx)
  {
    match e
    case Commit(p) => FinishKeepsHeld(hash, s.tx, p);
    case Abort(p) => FinishKeepsHeld(hash, s.tx, p);
    case Write(p, _) => FinishKeepsHeld(hash, s.tx, p);
    case _ =>
  }

  lemma {:induction false} RunKeepsHeld(hash: string -> int, run: seq<State>, events: seq<Event>, i: nat)
    requires IsRun(hash, run, events) && i < |run|
    ensures LocksHeld(hash, run[i].tx)
  {
    if i > 0 {
      RunKeepsHeld(hash, run, events, i - 1);
      RunKeepsInvariants(hash, run, events, i - 1);
      assert Next(hash, run[i - 1], events[i - 1], run[i - 1 + 1]);
      StepKeepsHeld(hash, run[i - 1], events[i - 1]);
    }
  }

  /**
   In every run, a waiting push can take its lock exactly when no push past its own lock step has the same hash of
   repository and branch: pushes whose hashes differ never wait for each other.
   */
  lemma WaitsExactlyWhen(hash: string -> int, run: seq<State>, events: seq<Event>, i: nat, p: PushId)
    requires IsRun(hash, run, events) && i < |run| && p in run[i].tx.pushes && run[i].tx.pushes[p].stage.Waiting?
    ensures Enabled(hash, run[i], Lock(p))
            <==> forall q :: q in run[i].tx.pushes && !run[i].tx.pushes[q].stage.Waiting? ==>
                   var a, b := run[i].tx.pushes[p].on, run[i].tx.pushes[q].on;
                   hash(a.repo + ":" + a.name) != hash(b.repo + ":" + b.name)
  {
    RunKeepsInvariants(hash, run, events, i);
    RunKeepsHeld(hash, run, events, i);
    var tx := run[i].tx;
    var key := LockKey(hash, tx.pushes[p].on);
    assert key in tx.locks ==> LockKey(hash, tx.pushes[tx.locks[key]].on) == key;
  }
}
