/**
 The API service's membership handlers, query by query. The caller's role, the target's role and the number of
 owners are read before the write and not under a lock, so requests can change the table in between.
 */
module OrgRaces {
  import opened Sets
  import opened Paths
  import opened OrgMembership

  type RequestId = nat

  /** What a request has read: the caller's role, and that the target is an owner to be counted, or all it needs. */
  datatype Stage = Entered(caller: Role) | MustCount | Cleared

  datatype Request = Request(org: OrgId, op: ApiOp, stage: Stage)

  datatype State = State(members: Members, requests: map<RequestId, Request>)

  datatype Event =
    | NewOrg(org: OrgId, founder: UserId)
    | Enter(r: RequestId, org: OrgId, op: ApiOp)
    | Look(r: RequestId)
    | Count(r: RequestId)
    | Write(r: RequestId)
    | GiveUp(r: RequestId)

  /** Whether the operation, once written, leaves its target without the owner role. */
  predicate Removes(op: ApiOp) {
    op.Expel? || (op.Update? && op.role != Owner)
  }

  function Target(op: ApiOp): UserId {
    match op
    case Invite(_, user, _) => user
    case Update(_, target, _) => target
    case Expel(_, target) => target
  }

  /** The write: an insert that meets a row fails, and an update or delete that meets none does nothing. */
  function Written(m: Members, org: OrgId, op: ApiOp): Members {
    match op
    case Invite(_, user, role) => if Seat(org, user) in m then m else m[Seat(org, user) := role]
    case Update(_, target, role) => if Seat(org, target) in m then m[Seat(org, target) := role] else m
    case Expel(_, target) => m - {Seat(org, target)}
  }

  predicate Enabled(s: State, e: Event) {
    match e
    case NewOrg(org, _) => forall seat :: seat in s.members ==> seat.org != org
    case Enter(r, org, op) => r !in s.requests && IsManager(s.members, org, op.caller)
    case Look(r) => r in s.requests && s.requests[r].stage.Entered?
    case Count(r) => r in s.requests && s.requests[r].stage.MustCount?
    case Write(r) => r in s.requests && s.requests[r].stage.Cleared?
    case GiveUp(r) => r in s.requests
  }

  function Dropped(s: State, r: RequestId): State {
    s.(requests := s.requests - {r})
  }

  function MoveTo(s: State, r: RequestId, stage: Stage): State
    requires r in s.requests
  {
    s.(requests := s.requests[r := s.requests[r].(stage := stage)])
  }

  /** The target's role has been read: an invitation needs no look, and owners must be counted before one goes. */
  function Looked(s: State, r: RequestId): State
    requires r in s.requests && s.requests[r].stage.Entered?
  {
    var q := s.requests[r];
    var seat := Seat(q.org, Target(q.op));
    if q.op.Invite? then MoveTo(s, r, Cleared)
    else if seat !in s.members then Dropped(s, r)
    else if q.op.Update? && q.stage.caller == Admin && (s.members[seat] == Owner || q.op.role == Owner) then Dropped(s, r)
    else if s.members[seat] == Owner && Removes(q.op) then MoveTo(s, r, MustCount)
    else MoveTo(s, r, Cleared)
  }

  function Apply(s: State, e: Event): State
    requires Enabled(s, e)
  {
    match e
    case NewOrg(org, founder) => s.(members := s.members[Seat(org, founder) := Owner])
    case Enter(r, org, op) =>
      s.(requests := s.requests[r := Request(org, op, Entered(s.members[Seat(org, op.caller)]))])
    case Look(r) => Looked(s, r)
    case Count(r) =>
      if |Owners(s.members, s.requests[r].org)| <= 1 then Dropped(s, r) else MoveTo(s, r, Cleared)
    case Write(r) => Dropped(s, r).(members := Written(s.members, s.requests[r].org, s.requests[r].op))
    case GiveUp(r) => Dropped(s, r)
  }

  /** One step of the system. */
  ghost predicate Next(s: State, e: Event, s': State) {
    Enabled(s, e) && s' == Apply(s, e)
  }

  ghost predicate IsStretch(run: seq<State>, events: seq<Event>) {
    |run| == |events| + 1 && forall i :: 0 <= i < |events| ==> Next(run[i], events[i], run[i + 1])
  }

  /** The step relation. */
  ghost function Steps(): (State, Event, State) -> bool {
    (s, e, s') => Next(s, e, s')
  }

  // -- Requests on their own --

  function WithRequest(s: State, r: RequestId, org: OrgId, op: ApiOp, stage: Stage): State {
    s.(requests := s.requests[r := Request(org, op, stage)])
  }

  lemma FirstSteps(s: State, r: RequestId, org: OrgId, op: ApiOp) returns (s': State)
    requires r !in s.requests && IsManager(s.members, org, op.caller)
    ensures Leads(Steps(), s, [Enter(r, org, op), Look(r)], s')
    ensures s' == if op.Invite? then WithRequest(s, r, org, op, Cleared)
                  else if ApiReply(s.members, org, op) in {NotFound, Forbidden} then s
                  else if Removes(op) && IsOwner(s.members, org, Target(op)) then WithRequest(s, r, org, op, MustCount)
                  else WithRequest(s, r, org, op, Cleared)
  {
    var s1 := Apply(s, Enter(r, org, op));
    s' := Apply(s1, Look(r));
    assert Steps()(s, Enter(r, org, op), s1) && Steps()(s1, Look(r), s');
    TwoSteps(Steps(), s, Enter(r, org, op), s1, Look(r), s');
    assert s1.requests - {r} == s.requests;
  }

  lemma CountStep(s: State, r: RequestId, org: OrgId, op: ApiOp) returns (s': State)
    requires r !in s.requests
    ensures Steps()(WithRequest(s, r, org, op, MustCount), Count(r), s')
    ensures s' == if |Owners(s.members, org)| <= 1 then s else WithRequest(s, r, org, op, Cleared)
  {
    var mid := WithRequest(s, r, org, op, MustCount);
    s' := Apply(mid, Count(r));
    assert mid.requests - {r} == s.requests;
  }

  /** The checks of a request, with nothing in between: it is dropped, or cleared to write. */
  lemma AllChecks(s: State, r: RequestId, org: OrgId, op: ApiOp) returns (events: seq<Event>, s': State)
    requires r !in s.requests && IsManager(s.members, org, op.caller)
    ensures Leads(Steps(), s, events, s')
    ensures s' == if op.Invite? || ApiReply(s.members, org, op) == Done then WithRequest(s, r, org, op, Cleared) else s
  {
    s' := FirstSteps(s, r, org, op);
    events := [Enter(r, org, op), Look(r)];
    if s' == WithRequest(s, r, org, op, MustCount) {
      s' := CountStep(s, r, org, op);
      Then(Steps(), s, events, WithRequest(s, r, org, op, MustCount), Count(r), s');
      events := events + [Count(r)];
    }
  }

  /** A request whose queries nothing interrupts does to the table what the serial handler does. */
  lemma UninterruptedRequest(s: State, r: RequestId, org: OrgId, op: ApiOp) returns (events: seq<Event>, s': State)
    requires r !in s.requests
    ensures Leads(Steps(), s, events, s')
    ensures s'.members == ApiApply(s.members, org, op) && s'.requests == s.requests
  {
    events, s' := [], s;
    if IsManager(s.members, org, op.caller) {
      events, s' := AllChecks(s, r, org, op);
      if s' != s {
        var mid := s';
        s' := Apply(mid, Write(r));
        assert Steps()(mid, Write(r), s');
        Then(Steps(), s, events, mid, Write(r), s');
        events := events + [Write(r)];
        assert s'.requests == s.requests;
      }
    }
  }

  // -- Who may act --

  ghost predicate IsRun(run: seq<State>, events: seq<Event>) {
    IsStretch(run, events) && run[0].requests == map[]
  }

  /** Request `r` entered at step `j`, its caller being an owner or an admin then. */
  ghost predicate EnteredAt(run: seq<State>, events: seq<Event>, r: RequestId, q: Request, j: nat) {
    && j < |events| < |run| && events[j] == Enter(r, q.org, q.op) && Seat(q.org, q.op.caller) in run[j].members
    && run[j].members[Seat(q.org, q.op.caller)] in {Owner, Admin}
  }

  lemma StepRequests(s: State, e: Event, r: RequestId)
    requires Enabled(s, e) && r in Apply(s, e).requests
    ensures var q' := Apply(s, e).requests[r];
            || (r in s.requests && s.requests[r].org == q'.org && s.requests[r].op == q'.op)
            || (e == Enter(r, q'.org, q'.op) && Seat(q'.org, q'.op.caller) in s.members
                && s.members[Seat(q'.org, q'.op.caller)] in {Owner, Admin})
  {
  }

  lemma {:induction false} RequestEntered(run: seq<State>, events: seq<Event>, n: nat, r: RequestId) returns (j: nat)
    requires IsRun(run, events) && n < |run| && r in run[n].requests
    ensures j < n && EnteredAt(run, events, r, run[n].requests[r], j)
  {
    assert n > 0;
    assert Next(run[n - 1], events[n - 1], run[n - 1 + 1]);
    StepRequests(run[n - 1], events[n - 1], r);
    var q := run[n].requests[r];
    if events[n - 1] == Enter(r, q.org, q.op) && r !in run[n - 1].requests {
      j := n - 1;
    } else {
      j := RequestEntered(run, events, n - 1, r);
    }
  }

  /**
   Every change of a seat, in every interleaving, is the founding of its organisation or the write of a request whose
   caller was an owner or an admin of it when the request entered.
   */
  lemma ChangesAreAuthorised(run: seq<State>, events: seq<Event>, i: nat, seat: Seat)
    requires IsRun(run, events) && i < |events| && Differs(run[i].members, run[i + 1].members, seat)
    ensures || (events[i].NewOrg? && events[i].org == seat.org)
            || (&& events[i].Write? && events[i].r in run[i].requests
                && run[i].requests[events[i].r].org == seat.org
                && exists j :: 0 <= j < i && EnteredAt(run, events, events[i].r, run[i].requests[events[i].r], j))
  {
    assert Next(run[i], events[i], run[i + 1]);
    if events[i].Write? {
      var j := RequestEntered(run, events, i, events[i].r);
    }
  }

  // -- What a write does to the owners --

  lemma WrittenOwners(m: Members, org: OrgId, op: ApiOp, o: OrgId)
    ensures var owners := Owners(Written(m, org, op), o);
            if o != org then owners == Owners(m, o)
            else if Removes(op) then owners == Owners(m, o) - {Target(op)}
            else Owners(m, o) <= owners <= Owners(m, o) + {Target(op)}
  {
    var seat := Seat(org, Target(op));
    OwnersAre(m, org, Target(op));
    match op
    case Invite(_, _, role) => SeatWrite(m, seat, role, o);
    case Update(_, _, role) => SeatWrite(m, seat, role, o);
    case Expel(_, _) => SeatDelete(m, seat, o);
  }

  /** The requests past their checks whose write would now take an owner away. */
  function Threats(s: State, org: OrgId): set<RequestId> {
    set r | r in s.requests && IsThreat(s, org, r)
  }

  predicate IsThreat(s: State, org: OrgId, r: RequestId)
    requires r in s.requests
  {
    var q := s.requests[r];
    q.org == org && q.stage.Cleared? && Removes(q.op) && Target(q.op) in Owners(s.members, org)
  }

  /** The one way an organisation loses its last owner in a step. */
  lemma LastOwnerLostExactlyWhen(s: State, e: Event, org: OrgId)
    requires Enabled(s, e) && Owners(s.members, org) != {}
    ensures Owners(Apply(s, e).members, org) == {}
            <==> e.Write? && e.r in Threats(s, org) && Owners(s.members, org) == {Target(s.requests[e.r].op)}
  {
    match e
    case NewOrg(o, founder) => SeatWrite(s.members, Seat(o, founder), Owner, org);
    case Write(r) =>
      var q := s.requests[r];
      WrittenOwners(s.members, q.org, q.op, org);
      if q.org == org && Removes(q.op) {
        var owners, target := Owners(s.members, org), Target(q.op);
        assert owners - {target} == {} <==> owners == {target};
      }
    case _ =>
  }

  // -- Runs --

  /** There is an owner, and if there is only one, nothing threatens it. */
  ghost predicate IsSafe(s: State, org: OrgId) {
    Owners(s.members, org) != {} && (|Owners(s.members, org)| <= 1 ==> Threats(s, org) == {})
  }

  lemma ThreatsShrink(s: State, s': State, org: OrgId)
    requires Owners(s'.members, org) <= Owners(s.members, org)
    requires forall r :: r in s'.requests && s'.requests[r].stage.Cleared? ==>
               r in s.requests && s'.requests[r] == s.requests[r]
    ensures Threats(s', org) <= Threats(s, org)
  {
  }

  lemma WriteKeepsSafe(s: State, r: RequestId, org: OrgId)
    requires Enabled(s, Write(r)) && IsSafe(s, org) && |Threats(s, org)| <= 1
    ensures IsSafe(Apply(s, Write(r)), org)
  {
    var q, s' := s.requests[r], Apply(s, Write(r));
    var owners, owners' := Owners(s.members, org), Owners(s'.members, org);
    WrittenOwners(s.members, q.org, q.op, org);
    if r in Threats(s, org) {
      assert |owners'| == |owners| - 1;
      assert Threats(s, org) == {r} by {
        assert |Threats(s, org) - {r}| == 0;
      }
      ThreatsShrink(s, s', org);
      assert r !in Threats(s', org);
    } else if owners' <= owners {
      assert owners' == owners;
      ThreatsShrink(s, s', org);
    } else {
      assert owners' == owners + {Target(q.op)} && |owners'| == |owners| + 1;
      assert |owners| >= 1;
    }
  }

  lemma ClearedKeepsSafe(s: State, r: RequestId, org: OrgId)
    requires r in s.requests && IsSafe(s, org)
    requires |Owners(s.members, org)| >= 2 || !IsThreat(MoveTo(s, r, Cleared), org, r)
    ensures IsSafe(MoveTo(s, r, Cleared), org)
  {
    var s' := MoveTo(s, r, Cleared);
    forall x | x in Threats(s', org) && x != r ensures x in Threats(s, org) {
      assert IsThreat(s', org, x);
    }
  }

  lemma StepKeepsSafe(s: State, e: Event, org: OrgId)
    requires Enabled(s, e) && IsSafe(s, org) && |Threats(s, org)| <= 1
    ensures IsSafe(Apply(s, e), org)
  {
    var s' := Apply(s, e);
    match e
    case NewOrg(o, founder) =>
      SeatWrite(s.members, Seat(o, founder), Owner, org);
      ThreatsShrink(s, s', org);
    case Look(r) =>
      var q := s.requests[r];
      OwnersAre(s.members, q.org, Target(q.op));
      if s' == MoveTo(s, r, Cleared) {
        ClearedKeepsSafe(s, r, org);
      } else {
        ThreatsShrink(s, s', org);
      }
    case Count(r) =>
      if s' == MoveTo(s, r, Cleared) {
        ClearedKeepsSafe(s, r, org);
      } else {
        ThreatsShrink(s, s', org);
      }
    case Write(r) => WriteKeepsSafe(s, r, org);
    case _ => ThreatsShrink(s, s', org);
  }

  /**
   In every interleaving an organisation that has an owner keeps one, as long as at most one request at a time
   is past its checks and about to take an owner of it away.
   */
  lemma {:induction false} OwnerSurvives(run: seq<State>, events: seq<Event>, org: OrgId, k: nat)
    requires IsStretch(run, events) && k < |run|
    requires IsSafe(run[0], org) && forall j :: 0 <= j < k ==> |Threats(run[j], org)| <= 1
    ensures IsSafe(run[k], org) && Owners(run[k].members, org) != {}
  {
    if k > 0 {
      OwnerSurvives(run, events, org, k - 1);
      assert Next(run[k - 1], events[k - 1], run[k - 1 + 1]);
      StepKeepsSafe(run[k - 1], events[k - 1], org);
    }
  }

  // -- Why one at a time --

  predicate IsThreatened(s: State, org: OrgId, u: UserId) {
    exists r :: r in Threats(s, org) && Target(s.requests[r].op) == u
  }

  ghost predicate AllThreatened(s: State, org: OrgId) {
    forall u :: u in Owners(s.members, org) ==> IsThreatened(s, org, u)
  }

  predicate IsWrite(e: Event) {
    e.Write?
  }

  lemma {:induction false} UnthreatenedStays(s: State, events: seq<Event>, s': State, org: OrgId, u: UserId)
    requires Leads(Steps(), s, events, s') && forall e :: e in events ==> IsWrite(e)
    requires u in Owners(s.members, org) && !IsThreatened(s, org, u)
    ensures u in Owners(s'.members, org) && !IsThreatened(s', org, u)
    ensures forall r :: r in s'.requests ==> r in s.requests && s'.requests[r] == s.requests[r]
    decreases |events|
  {
    if events != [] {
      var n := |events| - 1;
      var mid :| Leads(Steps(), s, events[..n], mid) && Steps()(mid, events[n], s');
      UnthreatenedStays(s, events[..n], mid, org, u);
      assert IsWrite(events[n]);
      var r := events[n].r;
      WrittenOwners(mid.members, mid.requests[r].org, mid.requests[r].op, org);
      assert mid.requests[r].org == org && Removes(mid.requests[r].op) && Target(mid.requests[r].op) == u ==>
          r in Threats(mid, org);
    }
  }

  /** Writes alone lead to a state in which the organisation has no owner. */
  ghost predicate WritesRemoveAll(s: State, events: seq<Event>, s': State, org: OrgId) {
    && Leads(Steps(), s, events, s') && (forall e :: e in events ==> IsWrite(e))
    && Owners(s'.members, org) == {}
  }

  /** Each threat to one owner in turn. */
  lemma {:induction false} WriteThemAll(s: State, org: OrgId) returns (events: seq<Event>, s': State)
    requires AllThreatened(s, org)
    ensures WritesRemoveAll(s, events, s', org)
    decreases |Owners(s.members, org)|
  {
    var owners := Owners(s.members, org);
    if owners == {} {
      events, s' := [], s;
    } else {
      var u :| u in owners;
      var r :| r in Threats(s, org) && Target(s.requests[r].op) == u;
      var s1 := Apply(s, Write(r));
      WrittenOwners(s.members, org, s.requests[r].op, org);
      forall v | v in Owners(s1.members, org) ensures IsThreatened(s1, org, v) {
        var x :| x in Threats(s, org) && Target(s.requests[x].op) == v;
        assert x != r && IsThreat(s1, org, x) && x in Threats(s1, org);
      }
      assert |Owners(s1.members, org)| < |owners|;
      var rest;
      rest, s' := WriteThemAll(s1, org);
      events := [Write(r)] + rest;
      assert Steps()(s, Write(r), s1);
      Then(Steps(), s, [], s, Write(r), s1);
      assert [] + [Write(r)] == [Write(r)];
      Joined(Steps(), s, [Write(r)], s1, rest, s');
    }
  }

  /**
   The pending writes can leave an organisation without an owner exactly when every owner is the target of one:
   one pending write can take a sole owner, two can take the last two.
   */
  lemma PendingWritesCanRemoveAllExactlyWhen(s: State, org: OrgId)
    requires Owners(s.members, org) != {}
    ensures AllThreatened(s, org) <==> exists events, s' :: WritesRemoveAll(s, events, s', org)
  {
    if AllThreatened(s, org) {
      var events, s' := WriteThemAll(s, org);
    }
    if events, s' :| WritesRemoveAll(s, events, s', org) {
      forall u | u in Owners(s.members, org) ensures IsThreatened(s, org, u) {
        if !IsThreatened(s, org, u) {
          UnthreatenedStays(s, events, s', org, u);
        }
      }
    }
  }

  // -- Two owners demoting each other --

  lemma TwoOwners(org: OrgId, a: UserId, b: UserId) returns (events: seq<Event>, s: State)
    requires a != b
    ensures Leads(Steps(), State(map[], map[]), events, s)
    ensures s.requests == map[] && s.members == map[Seat(org, a) := Owner, Seat(org, b) := Owner]
  {
    var invite := Invite(a, b, Owner);
    var s0 := State(map[], map[]);
    var s1 := Apply(s0, NewOrg(org, a));
    var s2 := Apply(s1, Enter(0, org, invite));
    var s3 := Apply(s2, Look(0));
    s := Apply(s3, Write(0));
    assert Steps()(s0, NewOrg(org, a), s1) && Steps()(s1, Enter(0, org, invite), s2) && Steps()(s2, Look(0), s3);
    ThreeSteps(Steps(), s0, NewOrg(org, a), s1, Enter(0, org, invite), s2, Look(0), s3);
    assert Steps()(s3, Write(0), s);
    Then(Steps(), s0, [NewOrg(org, a), Enter(0, org, invite), Look(0)], s3, Write(0), s);
    events := [NewOrg(org, a), Enter(0, org, invite), Look(0)] + [Write(0)];
    assert s.requests == map[];
  }

  /** A request to demote one of two owners gets past its checks. */
  lemma DemotionClears(s: State, org: OrgId, r: RequestId, caller: UserId, target: UserId)
    returns (events: seq<Event>, s': State)
    requires r !in s.requests && |Owners(s.members, org)| >= 2
    requires IsOwner(s.members, org, caller) && IsOwner(s.members, org, target)
    ensures Leads(Steps(), s, events, s')
    ensures s' == s.(requests := s.requests[r := Request(org, Update(caller, target, Member), Cleared)])
  {
    var op := Update(caller, target, Member);
    var s1 := Apply(s, Enter(r, org, op));
    var s2 := Apply(s1, Look(r));
    s' := Apply(s2, Count(r));
    events := [Enter(r, org, op), Look(r), Count(r)];
    assert Steps()(s, Enter(r, org, op), s1) && Steps()(s1, Look(r), s2) && Steps()(s2, Count(r), s');
    ThreeSteps(Steps(), s, Enter(r, org, op), s1, Look(r), s2, Count(r), s');
  }

  lemma BothDemoted(s: State, org: OrgId, a: UserId, b: UserId) returns (s': State)
    requires a != b && s.members == map[Seat(org, a) := Owner, Seat(org, b) := Owner]
    requires s.requests == map[0 := Request(org, Update(a, b, Member), Cleared),
                               1 := Request(org, Update(b, a, Member), Cleared)]
    ensures Leads(Steps(), s, [Write(0), Write(1)], s')
    ensures s'.members == map[Seat(org, a) := Member, Seat(org, b) := Member]
  {
    var s1 := Apply(s, Write(0));
    s' := Apply(s1, Write(1));
    assert Steps()(s, Write(0), s1) && Steps()(s1, Write(1), s');
    TwoSteps(Steps(), s, Write(0), s1, Write(1), s');
  }

  lemma BothCleared(s: State, org: OrgId, a: UserId, b: UserId) returns (events: seq<Event>, s': State)
    requires a != b && s.members == map[Seat(org, a) := Owner, Seat(org, b) := Owner] && s.requests == map[]
    ensures Leads(Steps(), s, events, s') && s'.members == s.members
    ensures s'.requests == map[0 := Request(org, Update(a, b, Member), Cleared),
                               1 := Request(org, Update(b, a, Member), Cleared)]
  {
    OwnersAre(s.members, org, a);
    OwnersAre(s.members, org, b);
    SubsetSize({a, b}, Owners(s.members, org));
    var first, mid := DemotionClears(s, org, 0, a, b);
    var second;
    second, s' := DemotionClears(mid, org, 1, b, a);
    Joined(Steps(), s, first, mid, second, s');
    events := first + second;
  }

  /** A run in which two owners demote each other, both counting before either writes, and none is left. */
  lemma RacingDemotionsLeaveNone(org: OrgId, a: UserId, b: UserId) returns (events: seq<Event>, s': State)
    requires a != b
    ensures Leads(Steps(), State(map[], map[]), events, s')
    ensures Seat(org, a) in s'.members && Seat(org, b) in s'.members && Owners(s'.members, org) == {}
  {
    var before, s1 := TwoOwners(org, a, b);
    var checks, s2 := BothCleared(s1, org, a, b);
    s' := BothDemoted(s2, org, a, b);
    Joined(Steps(), State(map[], map[]), before, s1, checks, s2);
    Joined(Steps(), State(map[], map[]), before + checks, s2, [Write(0), Write(1)], s');
    events := before + checks + [Write(0), Write(1)];
  }
}
