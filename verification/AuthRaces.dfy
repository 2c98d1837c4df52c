/**
 The auth service's membership handlers, query by query. Roles are read before the writes and not under a lock, and a
 transfer of ownership is two writes, so requests of one organisation can act on what is no longer so.
 */
module AuthRaces {
  import opened Paths
  import opened OrgMembership

  type RequestId = nat

  datatype Op = Change(target: UserId, role: Role) | Drop(target: UserId) | HandOver(to: UserId)

  /** Entered: the actor's role has been read. Cleared: the target's too. Promoted: a transfer between its writes. */
  datatype Stage = Entered | Cleared | Promoted

  datatype Request = Request(org: OrgId, actor: UserId, op: Op, stage: Stage)

  datatype State = State(members: Members, requests: map<RequestId, Request>)

  datatype Event =
    | NewOrg(org: OrgId, founder: UserId)
    | Arrive(arrival: Seat, role: Role)
    | Enter(r: RequestId, org: OrgId, actor: UserId, op: Op)
    | Look(r: RequestId)
    | Write(r: RequestId)
    | GiveUp(r: RequestId)

  function Target(op: Op): UserId {
    match op
    case Change(target, _) => target
    case Drop(target) => target
    case HandOver(to) => to
  }

  predicate Enabled(s: State, e: Event) {
    match e
    case NewOrg(org, _) => forall seat :: seat in s.members ==> seat.org != org
    case Arrive(seat, role) => seat !in s.members && role != Owner
    case Enter(r, org, actor, op) =>
      && r !in s.requests && (op.Change? ==> op.role != Owner)
      && if op.HandOver? then IsOwner(s.members, org, actor) else IsManager(s.members, org, actor)
    case Look(r) => r in s.requests && s.requests[r].stage.Entered?
    case Write(r) => r in s.requests && !s.requests[r].stage.Entered?
    case GiveUp(r) => r in s.requests
  }

  function Dropped(s: State, r: RequestId): State {
    s.(requests := s.requests - {r})
  }

  function MoveTo(s: State, r: RequestId, stage: Stage): State
    requires r in s.requests
  {
    s.(requests := s.requests[r := s.requests[r].(stage := stage)])
  }

  /** UpdateOrgMemberRole, which changes nothing where there is no row. */
  function WithRole(m: Members, seat: Seat, role: Role): Members {
    if seat in m then m[seat := role] else m
  }

  function Looked(s: State, r: RequestId): State
    requires r in s.requests
  {
    var q := s.requests[r];
    var seat := Seat(q.org, Target(q.op));
    if seat !in s.members || (!q.op.HandOver? && s.members[seat] == Owner) then Dropped(s, r)
    else MoveTo(s, r, Cleared)
  }

  function Written(s: State, r: RequestId): State
    requires r in s.requests
  {
    var q := s.requests[r];
    var seat := Seat(q.org, Target(q.op));
    match q.op
    case Change(_, role) => Dropped(s, r).(members := WithRole(s.members, seat, role))
    case Drop(_) => Dropped(s, r).(members := s.members - {seat})
    case HandOver(_) =>
      if q.stage.Promoted? then Dropped(s, r).(members := WithRole(s.members, Seat(q.org, q.actor), Admin))
      else MoveTo(s, r, Promoted).(members := WithRole(s.members, seat, Owner))
  }

  function Apply(s: State, e: Event): State
    requires Enabled(s, e)
  {
    match e
    case NewOrg(org, founder) => s.(members := s.members[Seat(org, founder) := Owner])
    case Arrive(seat, role) => s.(members := s.members[seat := role])
    case Enter(r, org, actor, op) => s.(requests := s.requests[r := Request(org, actor, op, Entered)])
    case Look(r) => Looked(s, r)
    case Write(r) => Written(s, r)
    case GiveUp(r) => Dropped(s, r)
  }

  /** One step of the system. */
  ghost predicate Next(s: State, e: Event, s': State) {
    Enabled(s, e) && s' == Apply(s, e)
  }

  ghost predicate IsStretch(run: seq<State>, events: seq<Event>) {
    |run| == |events| + 1 && forall i :: 0 <= i < |events| ==> Next(run[i], events[i], run[i + 1])
  }

  /** The step relation. */
  ghost function Steps(): (State, Event, State) -> bool {
    (s, e, s') => Next(s, e, s')
  }

  // -- Requests on their own --

  function Serial(org: OrgId, actor: UserId, op: Op): AuthOp {
    match op
    case Change(target, role) => SetRole(actor, org, target, role)
    case Drop(target) => Remove(actor, org, target)
    case HandOver(to) => Transfer(actor, org, to, false)
  }

  function WithRequest(s: State, r: RequestId, org: OrgId, actor: UserId, op: Op): State {
    s.(requests := s.requests[r := Request(org, actor, op, Cleared)])
  }

  predicate MayEnter(m: Members, org: OrgId, actor: UserId, op: Op) {
    if op.HandOver? then IsOwner(m, org, actor) else IsManager(m, org, actor)
  }

  lemma FirstSteps(s: State, r: RequestId, org: OrgId, actor: UserId, op: Op) returns (s': State)
    requires r !in s.requests && MayEnter(s.members, org, actor, op) && (op.Change? ==> op.role != Owner)
    ensures Leads(Steps(), s, [Enter(r, org, actor, op), Look(r)], s')
    ensures s' == if AuthReply(s.members, Serial(org, actor, op)) == Done then WithRequest(s, r, org, actor, op) else s
  {
    var s1 := Apply(s, Enter(r, org, actor, op));
    s' := Apply(s1, Look(r));
    assert Steps()(s, Enter(r, org, actor, op), s1) && Steps()(s1, Look(r), s');
    TwoSteps(Steps(), s, Enter(r, org, actor, op), s1, Look(r), s');
    assert s1.requests - {r} == s.requests;
  }

  lemma WriteOnce(s: State, r: RequestId, before: seq<Event>, mid: State) returns (s': State)
    requires Leads(Steps(), s, before, mid) && Enabled(mid, Write(r))
    ensures Leads(Steps(), s, before + [Write(r)], s') && s' == Written(mid, r)
  {
    s' := Apply(mid, Write(r));
    assert Steps()(mid, Write(r), s');
    Then(Steps(), s, before, mid, Write(r), s');
  }

  /** A transfer past its checks makes its two writes. */
  lemma TransferSteps(s: State, before: seq<Event>, mid: State, r: RequestId) returns (s': State)
    requires Leads(Steps(), s, before, mid) && r in mid.requests && mid.requests[r].stage.Cleared?
    requires mid.requests[r].op.HandOver?
    ensures Leads(Steps(), s, before + [Write(r)] + [Write(r)], s')
    ensures var q := mid.requests[r];
            && s'.requests == mid.requests - {r}
            && s'.members == WithRole(WithRole(mid.members, Seat(q.org, q.op.to), Owner), Seat(q.org, q.actor), Admin)
  {
    var s1 := WriteOnce(s, r, before, mid);
    s' := WriteOnce(s, r, before + [Write(r)], s1);
    assert s'.requests == mid.requests - {r};
  }

  lemma LastSteps(s: State, r: RequestId, org: OrgId, actor: UserId, op: Op, before: seq<Event>)
    returns (events: seq<Event>, s': State)
    requires r !in s.requests && AuthReply(s.members, Serial(org, actor, op)) == Done
    requires Leads(Steps(), s, before, WithRequest(s, r, org, actor, op))
    ensures Leads(Steps(), s, events, s') && s'.requests == s.requests
    ensures s'.members == AuthApply(Directory({}, s.members), Serial(org, actor, op)).members
  {
    var mid := WithRequest(s, r, org, actor, op);
    assert mid.requests - {r} == s.requests;
    if op.HandOver? {
      s' := TransferSteps(s, before, mid, r);
      events := before + [Write(r)] + [Write(r)];
    } else {
      s' := WriteOnce(s, r, before, mid);
      events := before + [Write(r)];
    }
  }

  /** A request whose queries nothing interrupts does to the table what the serial handler does. */
  lemma UninterruptedRequest(s: State, r: RequestId, org: OrgId, actor: UserId, op: Op)
    returns (events: seq<Event>, s': State)
    requires r !in s.requests && (op.Change? ==> op.role != Owner)
    ensures Leads(Steps(), s, events, s') && s'.requests == s.requests
    ensures s'.members == AuthApply(Directory({}, s.members), Serial(org, actor, op)).members
  {
    events, s' := [], s;
    if MayEnter(s.members, org, actor, op) {
      s' := FirstSteps(s, r, org, actor, op);
      events := [Enter(r, org, actor, op), Look(r)];
      if AuthReply(s.members, Serial(org, actor, op)) == Done {
        events, s' := LastSteps(s, r, org, actor, op, events);
      }
    }
  }

  // -- Who may act --

  ghost predicate IsRun(run: seq<State>, events: seq<Event>) {
    IsStretch(run, events) && run[0].requests == map[]
  }

  /** Request `r` entered at step `j`, its actor being an owner then, or an admin unless it is a transfer. */
  ghost predicate EnteredAt(run: seq<State>, events: seq<Event>, r: RequestId, q: Request, j: nat) {
    && j < |events| < |run| && events[j] == Enter(r, q.org, q.actor, q.op) && Seat(q.org, q.actor) in run[j].members
    && run[j].members[Seat(q.org, q.actor)] in (if q.op.HandOver? then {Owner} else {Owner, Admin})
  }

  lemma StepRequests(s: State, e: Event, r: RequestId)
    requires Enabled(s, e) && r in Apply(s, e).requests
    ensures var q' := Apply(s, e).requests[r];
            || (r in s.requests && q' == s.requests[r].(stage := q'.stage))
            || (e == Enter(r, q'.org, q'.actor, q'.op) && Seat(q'.org, q'.actor) in s.members
                && s.members[Seat(q'.org, q'.actor)] in (if q'.op.HandOver? then {Owner} else {Owner, Admin}))
  {
  }

  lemma {:induction false} RequestEntered(run: seq<State>, events: seq<Event>, n: nat, r: RequestId) returns (j: nat)
    requires IsRun(run, events) && n < |run| && r in run[n].requests
    ensures j < n && EnteredAt(run, events, r, run[n].requests[r], j)
  {
    assert n > 0;
    assert Next(run[n - 1], events[n - 1], run[n - 1 + 1]);
    StepRequests(run[n - 1], events[n - 1], r);
    var q := run[n].requests[r];
    if events[n - 1] == Enter(r, q.org, q.actor, q.op) && r !in run[n - 1].requests {
      j := n - 1;
    } else {
      j := RequestEntered(run, events, n - 1, r);
    }
  }

  /**
   Every change of a seat, in every interleaving, is the founding of its organisation, an arrival, or the write of a
   request whose actor was an owner of it when the request entered, or an admin unless it is a transfer.
   */
  lemma ChangesAreAuthorised(run: seq<State>, events: seq<Event>, i: nat, seat: Seat)
    requires IsRun(run, events) && i < |events| && Differs(run[i].members, run[i + 1].members, seat)
    ensures || (events[i].NewOrg? && events[i].org == seat.org) || (events[i].Arrive? && events[i].arrival == seat)
            || (&& events[i].Write? && events[i].r in run[i].requests
                && run[i].requests[events[i].r].org == seat.org
                && exists j :: 0 <= j < i && EnteredAt(run, events, events[i].r, run[i].requests[events[i].r], j))
  {
    assert Next(run[i], events[i], run[i + 1]);
    if events[i].Write? {
      var j := RequestEntered(run, events, i, events[i].r);
    }
  }

  // -- What each step does to the owners --

  lemma RoleOwners(m: Members, seat: Seat, role: Role, org: OrgId)
    ensures Owners(WithRole(m, seat, role), org)
            == if seat.org != org || seat !in m then Owners(m, org)
               else if role == Owner then Owners(m, org) + {seat.user} else Owners(m, org) - {seat.user}
  {
    if seat in m {
      SeatWrite(m, seat, role, org);
    }
  }

  /** The owners of an organisation after a write of one of its requests. */
  lemma WrittenOwners(s: State, r: RequestId, org: OrgId)
    requires r in s.requests
    ensures var q, owners := s.requests[r], Owners(s.members, org);
            Owners(Written(s, r).members, org)
            == if q.org != org then owners
               else if !q.op.HandOver? then owners - {Target(q.op)}
               else if q.stage.Promoted? then owners - {q.actor}
               else if Seat(org, q.op.to) in s.members then owners + {q.op.to} else owners
    requires s.requests[r].op.Change? ==> s.requests[r].op.role != Owner
  {
    var q := s.requests[r];
    var target := Seat(q.org, Target(q.op));
    OwnersAre(s.members, org, Target(q.op));
    OwnersAre(s.members, org, q.actor);
    match q.op
    case Change(_, role) => RoleOwners(s.members, target, role, org);
    case Drop(_) => SeatDelete(s.members, target, org);
    case HandOver(_) =>
      RoleOwners(s.members, Seat(q.org, q.actor), Admin, org);
      RoleOwners(s.members, target, Owner, org);
  }

  ghost predicate ChangesOk(s: State) {
    forall r :: r in s.requests && s.requests[r].op.Change? ==> s.requests[r].op.role != Owner
  }

  lemma StepKeepsChanges(s: State, e: Event)
    requires Enabled(s, e) && ChangesOk(s)
    ensures ChangesOk(Apply(s, e))
  {
  }

  // -- The exact account --

  /** The transfers of the organisation that are between their two writes. */
  function HalfWay(s: State, org: OrgId): set<RequestId> {
    set r | r in s.requests && s.requests[r].org == org && s.requests[r].stage.Promoted?
  }

  /** Owners, less one for each transfer half-way. */
  function Balance(s: State, org: OrgId): int {
    |Owners(s.members, org)| - |HalfWay(s, org)|
  }

  /**
   The step acts on what is no longer so: it changes or removes someone who is an owner by now, promotes someone who
   is one already or has gone, demotes someone who is none, or leaves a transfer half-way.
   */
  predicate IsStale(s: State, e: Event, org: OrgId)
    requires Enabled(s, e)
  {
    (e.Write? || e.GiveUp?) && s.requests[e.r].org == org &&
    var q := s.requests[e.r];
    var owners := Owners(s.members, org);
    if e.GiveUp? then q.stage.Promoted?
    else if !q.op.HandOver? then Target(q.op) in owners
    else if q.stage.Promoted? then q.actor !in owners
    else q.op.to in owners || Seat(org, q.op.to) !in s.members
  }

  /** Only transfers have a stage between two writes. */
  ghost predicate StagesOk(s: State) {
    forall r :: r in s.requests && s.requests[r].stage.Promoted? ==> s.requests[r].op.HandOver?
  }

  lemma StepKeepsStages(s: State, e: Event)
    requires Enabled(s, e) && StagesOk(s)
    ensures StagesOk(Apply(s, e))
  {
  }

  lemma StepHalfWay(s: State, e: Event, org: OrgId)
    requires Enabled(s, e) && StagesOk(s)
    ensures var s' := Apply(s, e);
            if e.Write? && s.requests[e.r].org == org && s.requests[e.r].op.HandOver? && s.requests[e.r].stage.Cleared?
            then HalfWay(s', org) == HalfWay(s, org) + {e.r} && e.r !in HalfWay(s, org)
            else if (e.Write? || e.GiveUp?) && s.requests[e.r].org == org && s.requests[e.r].stage.Promoted?
            then HalfWay(s', org) == HalfWay(s, org) - {e.r} && e.r in HalfWay(s, org)
            else HalfWay(s', org) == HalfWay(s, org)
  {
  }

  lemma StepOwners(s: State, e: Event, org: OrgId)
    requires Enabled(s, e) && ChangesOk(s) && !e.Write? && !(e.NewOrg? && e.org == org)
    ensures Owners(Apply(s, e).members, org) == Owners(s.members, org)
  {
    match e
    case NewOrg(o, founder) => SeatWrite(s.members, Seat(o, founder), Owner, org);
    case Arrive(seat, role) =>
      SeatWrite(s.members, seat, role, org);
      OwnersAre(s.members, org, seat.user);
    case _ =>
  }

  /** Each step keeps the balance of an existing organisation exactly when it is not stale. */
  lemma BalanceKeptExactlyWhen(s: State, e: Event, org: OrgId)
    requires Enabled(s, e) && ChangesOk(s) && StagesOk(s) && !(e.NewOrg? && e.org == org)
    ensures Balance(Apply(s, e), org) == Balance(s, org) <==> !IsStale(s, e, org)
  {
    StepHalfWay(s, e, org);
    if e.Write? {
      WrittenOwners(s, e.r, org);
    } else {
      StepOwners(s, e, org);
    }
  }

  ghost predicate FormOk(s: State) {
    ChangesOk(s) && StagesOk(s)
  }

  /**
   As long as no step is stale, an organisation with one owner has one at every moment when no transfer of it is
   half-way, in every interleaving.
   */
  lemma {:induction false} OneOwnerUnlessStale(run: seq<State>, events: seq<Event>, org: OrgId, k: nat)
    requires IsStretch(run, events) && k < |run| && FormOk(run[0]) && Balance(run[0], org) == 1
    requires forall i :: 0 <= i < k ==> Enabled(run[i], events[i]) && !IsStale(run[i], events[i], org)
    requires forall i :: 0 <= i < k && events[i].NewOrg? ==> events[i].org != org
    ensures FormOk(run[k]) && Balance(run[k], org) == 1
    ensures HalfWay(run[k], org) == {} ==> |Owners(run[k].members, org)| == 1
  {
    if k > 0 {
      OneOwnerUnlessStale(run, events, org, k - 1);
      assert Next(run[k - 1], events[k - 1], run[k - 1 + 1]);
      StepKeepsChanges(run[k - 1], events[k - 1]);
      StepKeepsStages(run[k - 1], events[k - 1]);
      BalanceKeptExactlyWhen(run[k - 1], events[k - 1], org);
    }
  }

  // -- A premise on the requests in flight --

  /** A request of the organisation that relies on what it has read: a transfer, or another one past its checks. */
  predicate Relies(s: State, r: RequestId, org: OrgId) {
    && r in s.requests && s.requests[r].org == org
    && (s.requests[r].op.HandOver? || !s.requests[r].stage.Entered?)
  }

  /** While a transfer of the organisation is in flight, no other request of it is past its checks. */
  ghost predicate TransfersAlone(s: State, org: OrgId) {
    forall r, r' :: Relies(s, r, org) && Relies(s, r', org) && r != r' ==> !s.requests[r].op.HandOver?
  }

  /** What the reads of a request still say about the owners. */
  ghost predicate IsCurrent(s: State, r: RequestId, org: OrgId)
    requires r in s.requests
  {
    var q, owners := s.requests[r], Owners(s.members, org);
    if q.op.HandOver? then
      && q.op.to != q.actor && (q.stage.Cleared? ==> Seat(org, q.op.to) in s.members)
      && owners == if q.stage.Promoted? then {q.actor, q.op.to} else {q.actor}
    else q.stage.Cleared? && Target(q.op) !in owners
  }

  ghost predicate IsSafe(s: State, org: OrgId) {
    && FormOk(s) && Balance(s, org) == 1
    && forall r :: Relies(s, r, org) ==> IsCurrent(s, r, org)
  }

  /** Transfers name someone else, and none is given up half-way. */
  predicate IsSound(s: State, e: Event) {
    && (e.Enter? && e.op.HandOver? ==> e.op.to != e.actor)
    && (e.GiveUp? && e.r in s.requests ==> !s.requests[e.r].stage.Promoted?)
  }

  lemma SafeIsFresh(s: State, e: Event, org: OrgId)
    requires Enabled(s, e) && IsSafe(s, org) && IsSound(s, e)
    ensures !IsStale(s, e, org)
  {
    if e.Write? && s.requests[e.r].org == org {
      assert Relies(s, e.r, org) && IsCurrent(s, e.r, org);
    }
  }

  lemma OnlyOwner(s: State, org: OrgId, u: UserId)
    requires Balance(s, org) == 1 && HalfWay(s, org) == {} && IsOwner(s.members, org, u)
    ensures Owners(s.members, org) == {u}
  {
    SameOwner(s.members, org, u, u);
  }

  lemma NewTransferIsCurrent(s: State, e: Event, org: OrgId)
    requires Enabled(s, e) && IsSafe(s, org) && IsSound(s, e) && TransfersAlone(Apply(s, e), org)
    requires e.Enter? && e.op.HandOver? && e.org == org
    ensures IsCurrent(Apply(s, e), e.r, org)
  {
    var s' := Apply(s, e);
    assert Relies(s', e.r, org);
    assert forall r :: r in HalfWay(s, org) ==> Relies(s', r, org);
    assert HalfWay(s, org) == {};
    OnlyOwner(s, org, e.actor);
  }

  lemma OthersStayCurrent(s: State, e: Event, org: OrgId, r: RequestId)
    requires Enabled(s, e) && IsSafe(s, org) && TransfersAlone(s, org) && !(e.NewOrg? && e.org == org)
    requires Relies(Apply(s, e), r, org) && Relies(s, r, org) && Apply(s, e).requests[r] == s.requests[r]
    ensures IsCurrent(Apply(s, e), r, org)
  {
    assert IsCurrent(s, r, org);
    if e.Write? {
      WrittenOwners(s, e.r, org);
      if s.requests[e.r].org == org {
        assert Relies(s, e.r, org) && IsCurrent(s, e.r, org);
      }
    } else {
      StepOwners(s, e, org);
    }
  }

  lemma MoverStaysCurrent(s: State, e: Event, org: OrgId)
    requires Enabled(s, e) && IsSafe(s, org) && (e.Look? || e.Write?) && e.r in Apply(s, e).requests
    requires Relies(Apply(s, e), e.r, org)
    ensures IsCurrent(Apply(s, e), e.r, org)
  {
    var q := s.requests[e.r];
    OwnersAre(s.members, org, Target(q.op));
    if Relies(s, e.r, org) {
      assert IsCurrent(s, e.r, org);
    }
    if e.Write? {
      WrittenOwners(s, e.r, org);
    }
  }

  lemma StepKeepsSafe(s: State, e: Event, org: OrgId)
    requires Enabled(s, e) && IsSafe(s, org) && IsSound(s, e) && !(e.NewOrg? && e.org == org)
    requires TransfersAlone(s, org) && TransfersAlone(Apply(s, e), org)
    ensures IsSafe(Apply(s, e), org)
  {
    var s' := Apply(s, e);
    StepKeepsChanges(s, e);
    StepKeepsStages(s, e);
    SafeIsFresh(s, e, org);
    BalanceKeptExactlyWhen(s, e, org);
    forall r | Relies(s', r, org) ensures IsCurrent(s', r, org) {
      if e.Enter? && e.r == r {
        NewTransferIsCurrent(s, e, org);
      } else if (e.Look? || e.Write?) && e.r == r {
        MoverStaysCurrent(s, e, org);
      } else {
        OthersStayCurrent(s, e, org, r);
      }
    }
  }

  /**
   In every interleaving in which a transfer runs alone among the requests of its organisation past their checks,
   names someone else and is carried through, the organisation has exactly one owner at every moment when no
   transfer of it is half-way.
   */
  lemma {:induction false} OneOwnerWithTransfersAlone(run: seq<State>, events: seq<Event>, org: OrgId, k: nat)
    requires IsStretch(run, events) && k < |run| && IsSafe(run[0], org)
    requires forall i :: 0 <= i <= k ==> TransfersAlone(run[i], org)
    requires forall i :: 0 <= i < k ==> IsSound(run[i], events[i]) && !(events[i].NewOrg? && events[i].org == org)
    ensures IsSafe(run[k], org)
    ensures HalfWay(run[k], org) == {} ==> |Owners(run[k].members, org)| == 1
  {
    if k > 0 {
      OneOwnerWithTransfersAlone(run, events, org, k - 1);
      assert Next(run[k - 1], events[k - 1], run[k - 1 + 1]);
      StepKeepsSafe(run[k - 1], events[k - 1], org);
    }
  }

  // -- Runs that break it --

  const START: State := State(map[], map[])

  /** An owner and two members. */
  function Trio(org: OrgId, a: UserId, b: UserId, c: UserId): Members {
    map[Seat(org, a) := Owner, Seat(org, b) := Member, Seat(org, c) := Member]
  }

  lemma Founded(org: OrgId, a: UserId, b: UserId, c: UserId) returns (events: seq<Event>, s: State)
    requires a != b && b != c && a != c
    ensures Leads(Steps(), START, events, s) && s == State(Trio(org, a, b, c), map[])
  {
    var e1, e2, e3 := NewOrg(org, a), Arrive(Seat(org, b), Member), Arrive(Seat(org, c), Member);
    var s1 := Apply(START, e1);
    var s2 := Apply(s1, e2);
    s := Apply(s2, e3);
    assert Steps()(START, e1, s1) && Steps()(s1, e2, s2) && Steps()(s2, e3, s);
    ThreeSteps(Steps(), START, e1, s1, e2, s2, e3, s);
    events := [e1, e2, e3];
  }

  /** Two requests of the owner are past their checks. */
  function Cleared2(org: OrgId, a: UserId, op: Op, op': Op): map<RequestId, Request> {
    map[0 := Request(org, a, op, Cleared), 1 := Request(org, a, op', Cleared)]
  }

  lemma TrioAllows(org: OrgId, a: UserId, b: UserId, c: UserId, op: Op)
    requires a != b && b != c && a != c && op in {Drop(b), HandOver(b), HandOver(c)}
    ensures MayEnter(Trio(org, a, b, c), org, a, op) && AuthReply(Trio(org, a, b, c), Serial(org, a, op)) == Done
  {
  }

  lemma ClearTwo(m: Members, org: OrgId, a: UserId, op: Op, op': Op) returns (events: seq<Event>)
    requires MayEnter(m, org, a, op) && AuthReply(m, Serial(org, a, op)) == Done && !op.Change?
    requires MayEnter(m, org, a, op') && AuthReply(m, Serial(org, a, op')) == Done && !op'.Change?
    ensures Leads(Steps(), State(m, map[]), events, State(m, Cleared2(org, a, op, op')))
  {
    var s0 := State(m, map[]);
    var s1 := FirstSteps(s0, 0, org, a, op);
    var s := FirstSteps(s1, 1, org, a, op');
    var first, second := [Enter(0, org, a, op), Look(0)], [Enter(1, org, a, op'), Look(1)];
    Joined(Steps(), s0, first, s1, second, s);
    events := first + second;
    assert s.requests == Cleared2(org, a, op, op');
  }

  lemma BothClear(org: OrgId, a: UserId, b: UserId, c: UserId, op: Op, op': Op) returns (events: seq<Event>)
    requires a != b && b != c && a != c && op in {Drop(b), HandOver(b)} && op' in {HandOver(b), HandOver(c)}
    ensures Leads(Steps(), START, events, State(Trio(org, a, b, c), Cleared2(org, a, op, op')))
  {
    TrioAllows(org, a, b, c, op);
    TrioAllows(org, a, b, c, op');
    var before, s := Founded(org, a, b, c);
    var after := ClearTwo(s.members, org, a, op, op');
    Joined(Steps(), START, before, s, after, State(s.members, Cleared2(org, a, op, op')));
    events := before + after;
  }

  /** A removal that read its target before a transfer promoted it takes the only owner away. */
  lemma StaleRemovalLeavesNone(org: OrgId, a: UserId, b: UserId, c: UserId) returns (events: seq<Event>, s': State)
    requires a != b && b != c && a != c
    ensures Leads(Steps(), START, events, s') && s'.requests == map[]
    ensures s'.members == map[Seat(org, a) := Admin, Seat(org, c) := Member] && Owners(s'.members, org) == {}
  {
    events := BothClear(org, a, b, c, Drop(b), HandOver(b));
    var s := State(Trio(org, a, b, c), Cleared2(org, a, Drop(b), HandOver(b)));
    var s1 := TransferSteps(START, events, s, 1);
    s' := WriteOnce(START, 0, events + [Write(1)] + [Write(1)], s1);
    events := events + [Write(1)] + [Write(1)] + [Write(0)];
    RemovedTrio(org, a, b, c);
    assert s'.requests == map[];
  }

  lemma RemovedTrio(org: OrgId, a: UserId, b: UserId, c: UserId)
    requires a != b && b != c && a != c
    ensures WithRole(WithRole(Trio(org, a, b, c), Seat(org, b), Owner), Seat(org, a), Admin) - {Seat(org, b)}
            == map[Seat(org, a) := Admin, Seat(org, c) := Member]
  {
  }

  lemma BothWrite(s: State, before: seq<Event>, mid: State) returns (s': State)
    requires Leads(Steps(), s, before, mid) && Enabled(mid, Write(0)) && 1 in mid.requests && 0 in mid.requests
    requires !mid.requests[1].stage.Entered?
    ensures Leads(Steps(), s, before + [Write(0)] + [Write(1)], s')
    ensures 1 in Written(mid, 0).requests && s' == Written(Written(mid, 0), 1)
  {
    var s1 := WriteOnce(s, 0, before, mid);
    s' := WriteOnce(s, 1, before + [Write(0)], s1);
  }

  lemma BothPromote(org: OrgId, a: UserId, b: UserId, c: UserId, before: seq<Event>) returns (s': State)
    requires a != b && b != c && a != c
    requires Leads(Steps(), START, before, State(Trio(org, a, b, c), Cleared2(org, a, HandOver(b), HandOver(c))))
    ensures Leads(Steps(), START, before + [Write(0)] + [Write(1)], s')
    ensures s'.members == map[Seat(org, a) := Owner, Seat(org, b) := Owner, Seat(org, c) := Owner]
    ensures s'.requests == map[0 := Request(org, a, HandOver(b), Promoted), 1 := Request(org, a, HandOver(c), Promoted)]
  {
    s' := BothWrite(START, before, State(Trio(org, a, b, c), Cleared2(org, a, HandOver(b), HandOver(c))));
  }

  lemma BothDemote(org: OrgId, a: UserId, b: UserId, c: UserId, before: seq<Event>, s: State) returns (s': State)
    requires a != b && b != c && a != c && Leads(Steps(), START, before, s)
    requires s.members == map[Seat(org, a) := Owner, Seat(org, b) := Owner, Seat(org, c) := Owner]
    requires s.requests == map[0 := Request(org, a, HandOver(b), Promoted), 1 := Request(org, a, HandOver(c), Promoted)]
    ensures Leads(Steps(), START, before + [Write(0)] + [Write(1)], s')
    ensures s'.members == s.members[Seat(org, a) := Admin] && s'.requests == map[]
  {
    s' := BothWrite(START, before, s);
    assert s'.requests == map[];
  }

  /** Two transfers at once leave two owners. */
  lemma TwoTransfersLeaveTwo(org: OrgId, a: UserId, b: UserId, c: UserId) returns (events: seq<Event>, s': State)
    requires a != b && b != c && a != c
    ensures Leads(Steps(), START, events, s') && s'.requests == map[]
    ensures s'.members == map[Seat(org, a) := Admin, Seat(org, b) := Owner, Seat(org, c) := Owner]
  {
    var before := BothClear(org, a, b, c, HandOver(b), HandOver(c));
    var s := BothPromote(org, a, b, c, before);
    s' := BothDemote(org, a, b, c, before + [Write(0)] + [Write(1)], s);
    events := before + [Write(0)] + [Write(1)] + [Write(0)] + [Write(1)];
  }
}
