/**
 The poller's admission control and the runner's drain, with jobs finishing concurrently.

 GoWait adds one to the in-flight counter and only then starts the goroutine under the wait group; when
 the job function returns, the counter is decremented first and the wait group is told last. Each of these
 is a step of its own, and the steps of all jobs interleave with the poller's.
 */
module WorkerPool {
  import opened Paths

  type TaskId = nat

  /** How far a goroutine has got: its function is running, has returned, is off the counter, is off the wait group. */
  datatype Phase = Running | Returned | Uncounted | Gone

  /**
   Where the poller is. `Batch(left)` may still claim `left` jobs; `Starting(left)` is inside GoWait, between
   the counter and the wait group.
   */
  datatype PollerAt = Idle | Batch(left: int) | Starting(left: int) | Draining | Stopped(drained: bool)

  /** `waited` is set once the goroutine inside Drain has seen the wait group at zero. */
  datatype State = State(
    maxConcurrency: int, inflight: int, waitGroup: int, tasks: map<TaskId, Phase>, at: PollerAt, waited: bool)

  datatype Event =
    | Poll
    | Claim
    | Spawn(id: TaskId)
    | EndBatch
    | Return(id: TaskId)
    | Uncount(id: TaskId)
    | Leave(id: TaskId)
    | BeginDrain
    | SeeZero
    | Tick
    | DrainDone
    | Deadline

  ghost predicate Init(s: State) {
    s.inflight == 0 && s.waitGroup == 0 && s.tasks == map[] && s.at == Idle && !s.waited
  }

  predicate Enabled(s: State, e: Event) {
    match e
    case Poll => s.at.Idle?
    case Claim => s.at.Batch? && s.at.left > 0
    case Spawn(id) => s.at.Starting? && id !in s.tasks
    case EndBatch => s.at.Batch?
    case Return(id) => id in s.tasks && s.tasks[id] == Running
    case Uncount(id) => id in s.tasks && s.tasks[id] == Returned
    case Leave(id) => id in s.tasks && s.tasks[id] == Uncounted
    case BeginDrain => s.at.Idle?
    case SeeZero => s.at.Draining? && s.waitGroup == 0
    case Tick => s.at.Draining?
    case DrainDone => s.at.Draining? && s.waited
    case Deadline => s.at.Draining?
  }

  function Apply(s: State, e: Event): State
    requires Enabled(s, e)
  {
    match e
    case Poll => s.(at := Batch(s.maxConcurrency - s.inflight))
    case Claim => s.(inflight := s.inflight + 1, at := Starting(s.at.left - 1))
    case Spawn(id) => s.(waitGroup := s.waitGroup + 1, tasks := s.tasks[id := Running], at := Batch(s.at.left))
    case EndBatch => s.(at := Idle)
    case Return(id) => s.(tasks := s.tasks[id := Returned])
    case Uncount(id) => s.(inflight := s.inflight - 1, tasks := s.tasks[id := Uncounted])
    case Leave(id) => s.(waitGroup := s.waitGroup - 1, tasks := s.tasks[id := Gone])
    case BeginDrain => s.(at := Draining)
    case SeeZero => s.(waited := true)
    case Tick => s
    case DrainDone => s.(at := Stopped(true))
    case Deadline => s.(at := Stopped(s.inflight == 0))
  }

  /** One step of the system. */
  ghost predicate Next(s: State, e: Event, s': State) {
    Enabled(s, e) && s' == Apply(s, e)
  }

  ghost predicate IsRun(run: seq<State>, events: seq<Event>) {
    && |run| == |events| + 1
    && Init(run[0])
    && forall i :: 0 <= i < |events| ==> Next(run[i], events[i], run[i + 1])
  }

  // -- What every step keeps --

  function Executing(tasks: map<TaskId, Phase>): set<TaskId> {
    set id | id in tasks && tasks[id] == Running
  }

  function Counted(tasks: map<TaskId, Phase>): set<TaskId> {
    set id | id in tasks && (tasks[id] == Running || tasks[id] == Returned)
  }

  function Present(tasks: map<TaskId, Phase>): set<TaskId> {
    set id | id in tasks && tasks[id] != Gone
  }

  function Cap(s: State): nat {
    if s.maxConcurrency < 0 then 0 else s.maxConcurrency
  }

  ghost predicate CountersOk(s: State) {
    && s.inflight == |Counted(s.tasks)| + (if s.at.Starting? then 1 else 0)
    && s.waitGroup == |Present(s.tasks)|
  }

  /** Room for every job the current batch may still claim. */
  ghost predicate RoomOk(s: State) {
    && s.inflight <= Cap(s)
    && (s.at.Batch? && s.at.left > 0 ==> s.inflight + s.at.left <= Cap(s))
    && (s.at.Starting? ==> s.at.left >= 0 && s.inflight + s.at.left <= Cap(s))
  }

  ghost predicate DrainOk(s: State) {
    && (s.waited ==> (s.at.Draining? || s.at.Stopped?) && s.waitGroup == 0)
    && (s.at == Stopped(true) ==> Executing(s.tasks) == {})
  }

  ghost predicate Inv(s: State) {
    CountersOk(s) && RoomOk(s) && DrainOk(s)
  }

  lemma PhaseChange(tasks: map<TaskId, Phase>, id: TaskId, phase: Phase)
    ensures Counted(tasks[id := phase])
            == if phase == Running || phase == Returned then Counted(tasks) + {id} else Counted(tasks) - {id}
    ensures Present(tasks[id := phase]) == if phase != Gone then Present(tasks) + {id} else Present(tasks) - {id}
    ensures Executing(tasks[id := phase]) == if phase == Running then Executing(tasks) + {id} else Executing(tasks) - {id}
  {
  }

  function CountedBit(phase: Phase): nat {
    if phase == Running || phase == Returned then 1 else 0
  }

  function PresentBit(phase: Phase): nat {
    if phase != Gone then 1 else 0
  }

  /** How a change of one goroutine's phase moves the two totals. */
  lemma PhaseTotals(tasks: map<TaskId, Phase>, id: TaskId, phase: Phase)
    ensures var was := if id in tasks then tasks[id] else Gone;
            && |Counted(tasks[id := phase])| == |Counted(tasks)| - CountedBit(was) + CountedBit(phase)
            && |Present(tasks[id := phase])| == |Present(tasks)| - PresentBit(was) + PresentBit(phase)
  {
    PhaseChange(tasks, id, phase);
    var was := if id in tasks then tasks[id] else Gone;
    assert id in Counted(tasks) <==> CountedBit(was) == 1;
    assert id in Present(tasks) <==> PresentBit(was) == 1;
    AddRemove(Counted(tasks), id);
    AddRemove(Present(tasks), id);
  }

  lemma AddRemove(s: set<TaskId>, id: TaskId)
    ensures |s + {id}| == |s| + if id in s then 0 else 1
    ensures |s - {id}| == |s| - if id in s then 1 else 0
  {
    if id in s {
      assert s + {id} == s;
    } else {
      assert s - {id} == s;
    }
  }

  lemma StepKeepsCounters(s: State, e: Event)
    requires CountersOk(s) && Enabled(s, e)
    ensures CountersOk(Apply(s, e))
  {
    match e
    case Spawn(id) => PhaseTotals(s.tasks, id, Running);
    case Return(id) => PhaseTotals(s.tasks, id, Returned);
    case Uncount(id) => PhaseTotals(s.tasks, id, Uncounted);
    case Leave(id) => PhaseTotals(s.tasks, id, Gone);
    case _ =>
  }

  lemma ExecutingIsCounted(tasks: map<TaskId, Phase>)
    ensures |Executing(tasks)| <= |Counted(tasks)| <= |Present(tasks)|
  {
    assert Counted(tasks) == Executing(tasks) + (Counted(tasks) - Executing(tasks));
    assert Present(tasks) == Counted(tasks) + (Present(tasks) - Counted(tasks));
  }

  lemma StepKeepsDrain(s: State, e: Event)
    requires CountersOk(s) && DrainOk(s) && Enabled(s, e)
    ensures DrainOk(Apply(s, e))
  {
    ExecutingIsCounted(s.tasks);
    match e
    case Spawn(id) => PhaseChange(s.tasks, id, Running);
    case Return(id) => PhaseChange(s.tasks, id, Returned);
    case Uncount(id) => PhaseChange(s.tasks, id, Uncounted);
    case Leave(id) =>
      PhaseChange(s.tasks, id, Gone);
      assert id in Present(s.tasks);
    case _ =>
  }

  lemma StepKeepsInv(s: State, e: Event)
    requires Inv(s) && Enabled(s, e)
    ensures Inv(Apply(s, e))
  {
    StepKeepsCounters(s, e);
    StepKeepsDrain(s, e);
  }

  lemma {:induction false} RunKeepsInv(run: seq<State>, events: seq<Event>, i: nat)
    requires IsRun(run, events) && i < |run|
    ensures Inv(run[i])
  {
    if i == 0 {
      assert Counted(run[0].tasks) == {} && Present(run[0].tasks) == {} && Executing(run[0].tasks) == {};
    } else {
      RunKeepsInv(run, events, i - 1);
      assert Next(run[i - 1], events[i - 1], run[i - 1 + 1]);
      StepKeepsInv(run[i - 1], events[i - 1]);
    }
  }

  /** At every moment of every run, neither the counter nor the number of executing jobs exceeds the limit. */
  lemma NeverOverLimit(run: seq<State>, events: seq<Event>, i: nat)
    requires IsRun(run, events) && i < |run|
    ensures run[i].inflight <= 0 || run[i].inflight <= run[i].maxConcurrency
    ensures var executing := set id | id in run[i].tasks && run[i].tasks[id] == Running;
            executing == {} || |executing| <= run[i].maxConcurrency
  {
    RunKeepsInv(run, events, i);
    ExecutingIsCounted(run[i].tasks);
    assert Executing(run[i].tasks) == set id | id in run[i].tasks && run[i].tasks[id] == Running;
  }

  /** Drain returns nil only when every function handed to GoWait has returned, whichever branch it took. */
  lemma DrainedMeansReturned(run: seq<State>, events: seq<Event>, i: nat)
    requires IsRun(run, events) && i < |run| && run[i].at == Stopped(true)
    ensures forall id :: id in run[i].tasks ==> run[i].tasks[id] != Running
  {
    RunKeepsInv(run, events, i);
    assert forall id :: id in run[i].tasks && run[i].tasks[id] == Running ==> id in Executing(run[i].tasks);
  }

  // -- The loops, with interference --

  /** The step relation. */
  ghost function Steps(): (State, Event, State) -> bool {
    (s, e, s') => Next(s, e, s')
  }

  predicate IsTaskEvent(e: Event) {
    e.Return? || e.Uncount? || e.Leave? || e.SeeZero?
  }

  /** What happens around one claim: progress of other goroutines, cancellation, and the claim's outcome. */
  datatype Turn = Turn(before: seq<Event>, cancelled: bool, claimed: bool, between: seq<Event>, id: TaskId)

  class Worker {
    const maxConcurrency: int
    var inflight: int
    var waitGroup: int
    var tasks: map<TaskId, Phase>
    var at: PollerAt
    var waited: bool
    var past: seq<Event>
    ghost const start: State

    function View(): State
      reads this
    {
      State(maxConcurrency, inflight, waitGroup, tasks, at, waited)
    }

    /** The object is where its past steps lead from an initial state. */
    ghost predicate Valid()
      reads this
    {
      Init(start) && Leads(Steps(), start, past, View())
    }

    constructor (maxConcurrency: int)
      ensures Valid() && past == [] && at == Idle && this.maxConcurrency == maxConcurrency
    {
      this.maxConcurrency := maxConcurrency;
      inflight, waitGroup, tasks, at, waited, past := 0, 0, map[], Idle, false, [];
      start := State(maxConcurrency, 0, 0, map[], Idle, false);
    }

    /** One step of this worker or of one of its goroutines. */
    method Step(e: Event)
      requires Valid() && Enabled(View(), e)
      modifies this
      ensures Valid() && View() == Apply(old(View()), e) && past == old(past) + [e]
    {
      Then(Steps(), start, past, View(), e, Apply(View(), e));
      match e {
        case Poll => at := Batch(maxConcurrency - inflight);
        case Claim => inflight, at := inflight + 1, Starting(at.left - 1);
        case Spawn(id) => waitGroup, tasks, at := waitGroup + 1, tasks[id := Running], Batch(at.left);
        case EndBatch => at := Idle;
        case Return(id) => tasks := tasks[id := Returned];
        case Uncount(id) => inflight, tasks := inflight - 1, tasks[id := Uncounted];
        case Leave(id) => waitGroup, tasks := waitGroup - 1, tasks[id := Gone];
        case BeginDrain => at := Draining;
        case SeeZero => waited := true;
        case Tick =>
        case DrainDone => at := Stopped(true);
        case Deadline => at := Stopped(inflight == 0);
      }
      past := past + [e];
    }

    /** Other goroutines run for a while; requested steps that are not possible are skipped. */
    method Interfere(wanted: seq<Event>)
      requires Valid()
      modifies this
      ensures Valid() && at == old(at) && old(past) <= past && old(tasks).Keys == tasks.Keys
    {
      var i := 0;
      while i < |wanted|
        invariant 0 <= i <= |wanted| && Valid() && at == old(at) && old(past) <= past && old(tasks).Keys == tasks.Keys
      {
        if IsTaskEvent(wanted[i]) && Enabled(View(), wanted[i]) {
          Step(wanted[i]);
        }
        i := i + 1;
      }
    }

    /** GoWait: count the job, then start it under the wait group; other goroutines may run in between. */
    method GoWait(id: TaskId, between: seq<Event>)
      requires Valid() && at.Batch? && at.left > 0 && id !in tasks
      modifies this
      ensures Valid() && at == Batch(old(at.left) - 1) && old(past) <= past
      ensures tasks.Keys == old(tasks).Keys + {id} && tasks[id] == Running
    {
      Step(Claim);
      Interfere(between);
      Step(Spawn(id));
    }

    /**
     pollBatch: the number of free slots is read once; jobs come and go while they are filled. It starts the
     jobs of its turns in order and stops early only when cancelled or when a claim yields no new job.
     */
    method PollBatch(turns: seq<Turn>) returns (started: nat)
      requires Valid() && at == Idle
      modifies this
      ensures Valid() && at == Idle && old(past) <= past
      ensures started <= |turns| && (started > 0 ==> started <= maxConcurrency - old(inflight))
      ensures forall k :: 0 <= k < started ==> !turns[k].cancelled && turns[k].claimed && turns[k].id in tasks
      ensures started < |turns| && started < maxConcurrency - old(inflight) ==>
                turns[started].cancelled || !turns[started].claimed || turns[started].id in tasks
      ensures forall id :: id in tasks <==> id in old(tasks) || exists k :: 0 <= k < started && turns[k].id == id
    {
      started := 0;
      Step(Poll);
      var slots := at.left;
      var i := 0;
      while i < slots && i < |turns|
        invariant 0 <= i <= |turns| && Valid() && old(past) <= past
        invariant at == Batch(slots - i) && started == i && (i > 0 ==> i <= slots)
        invariant forall k :: 0 <= k < i ==> !turns[k].cancelled && turns[k].claimed && turns[k].id in tasks
        invariant forall id :: id in tasks <==> id in old(tasks) || exists k :: 0 <= k < i && turns[k].id == id
      {
        Interfere(turns[i].before);
        if turns[i].cancelled || !turns[i].claimed || turns[i].id in tasks {
          break;
        }
        GoWait(turns[i].id, turns[i].between);
        started, i := started + 1, i + 1;
      }
      Step(EndBatch);
    }

    /**
     Drain: ticks until the waiting goroutine is done or the deadline passes. The result is nil exactly when
     the poller stopped drained, and then no job is executing.
     */
    method Drain(ticks: seq<seq<Event>>, last: seq<Event>) returns (ok: bool)
      requires Valid() && at == Idle
      modifies this
      ensures Valid() && at == Stopped(ok)
      ensures ok ==> forall id :: id in tasks ==> tasks[id] != Running
      ensures ok <==> waited || inflight == 0
    {
      Step(BeginDrain);
      var i := 0;
      while i < |ticks| && !waited
        invariant 0 <= i <= |ticks| && Valid() && at == Draining
      {
        Interfere(ticks[i]);
        Step(Tick);
        i := i + 1;
      }
      Interfere(last);
      if waited {
        Step(DrainDone);
        ok := true;
      } else {
        Step(Deadline);
        ok := inflight == 0;
      }
      LeadsToInv(start, past, View());
      assert forall id :: id in tasks && tasks[id] == Running ==> id in Executing(tasks);
    }
  }

  lemma {:induction false} LeadsToInv(s: State, events: seq<Event>, s': State)
    requires Leads(Steps(), s, events, s') && Init(s)
    ensures Inv(s')
    decreases |events|
  {
    if events == [] {
      assert Counted(s.tasks) == {} && Present(s.tasks) == {} && Executing(s.tasks) == {};
    } else {
      var n := |events| - 1;
      var mid :| Leads(Steps(), s, events[..n], mid) && Steps()(mid, events[n], s');
      LeadsToInv(s, events[..n], mid);
      StepKeepsInv(mid, events[n]);
    }
  }
}
