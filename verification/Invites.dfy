/**
 Organisation invites. Every query of Accept is a step of its own, and any number of Accepts interleave with
 revocations, the expiry sweep and other changes to the member table. An invite is stored under the hash of
 its token, which is unique.
 */
module Invites {
  import opened Sets
  import opened Paths
  import Org = OrgMembership

  type InviteId = string
  type RequestId = nat

  /** Seven days, in microseconds. */
  const INVITE_TTL: int := 7 * 24 * 60 * 60 * 1_000_000

  datatype Status = Pending | Accepted(at: int) | Revoked | Expired

  datatype Invite = Invite(org: Org.OrgId, role: Org.Role, expiresAt: int, status: Status)

  type InviteTable = map<InviteId, Invite>

  // -- Statements --

  function WithStatus(t: InviteTable, id: InviteId, status: Status): InviteTable
    requires id in t
  {
    t[id := t[id].(status := status)]
  }

  /** The rows GetInviteByTokenHash finds and AcceptInvite updates. */
  predicate IsOpen(t: InviteTable, id: InviteId, now: int) {
    id in t && t[id].status == Pending && t[id].expiresAt > now
  }

  function RevokeInvite(t: InviteTable, id: InviteId, org: Org.OrgId): InviteTable {
    if id in t && t[id].org == org && t[id].status == Pending then WithStatus(t, id, Revoked) else t
  }

  /** DeleteExpiredInvites. */
  function ExpireInvites(t: InviteTable, now: int): InviteTable {
    map id | id in t ::
      if t[id].status == Pending && t[id].expiresAt < now then t[id].(status := Expired) else t[id]
  }

  function SeatsOf(m: Org.Members, org: Org.OrgId): set<Org.Seat> {
    set seat | seat in m && seat.org == org
  }

  /** CountOrgMembers. */
  function CountMembers(m: Org.Members, org: Org.OrgId): nat {
    |SeatsOf(m, org)|
  }

  /** Go's conversion of a count to int32. */
  function Int32(n: nat): int {
    var low := n % 0x1_0000_0000;
    if low < 0x8000_0000 then low else low - 0x1_0000_0000
  }

  predicate IsInt32(n: int) {
    -0x8000_0000 <= n < 0x8000_0000
  }

  // -- Interleaved requests --

  /** How far an Accept has got: found the invite, read the limit, passed the check, marked the invite. */
  datatype Stage = Found | HasLimit(max: int) | Admitted | Marked

  datatype Accept = Accept(invite: InviteId, seat: Org.Seat, role: Org.Role, stage: Stage)

  /**
   `invites` keeps every invite ever created. The rows of organisations in `gone`, which have been deleted, are
   deleted with them. `granted` logs the invite behind each membership; `lost` holds accepted invites that
   produced none.
   */
  datatype State = State(
    invites: InviteTable, members: Org.Members, limits: map<Org.OrgId, int>, gone: set<Org.OrgId>,
    requests: map<RequestId, Accept>, granted: seq<InviteId>, lost: set<InviteId>)

  predicate IsOpenIn(s: State, id: InviteId, now: int) {
    IsOpen(s.invites, id, now) && s.invites[id].org !in s.gone
  }

  datatype Event =
    | Create(id: InviteId, org: Org.OrgId, role: Org.Role, expiresAt: int)
    | Find(r: RequestId, user: Org.UserId, id: InviteId, now: int)
    | ReadLimit(r: RequestId)
    | Count(r: RequestId)
    | Mark(r: RequestId, now: int)
    | Join(r: RequestId)
    | GiveUp(r: RequestId)
    | Revoke(id: InviteId, org: Org.OrgId)
    | Expire(now: int)
    | Enter(entrant: Org.Seat, role: Org.Role)
    | Leave(leaver: Org.Seat)
    | SetLimit(org: Org.OrgId, max: int)
    | DeleteOrg(org: Org.OrgId)

  predicate Enabled(s: State, e: Event) {
    match e
    case Create(id, org, _, _) => id !in s.invites && org !in s.gone
    case Find(r, _, id, now) => r !in s.requests && IsOpenIn(s, id, now)
    case ReadLimit(r) => r in s.requests && s.requests[r].stage.Found? && s.requests[r].seat.org in s.limits
    case Count(r) => r in s.requests && s.requests[r].stage.HasLimit?
    case Mark(r, _) => r in s.requests && s.requests[r].stage.Admitted?
    case Join(r) => r in s.requests && s.requests[r].stage.Marked?
    case GiveUp(r) => r in s.requests
    case Enter(seat, _) => seat.org !in s.gone
    case SetLimit(org, _) => org !in s.gone
    case _ => true
  }

  function MoveTo(s: State, r: RequestId, stage: Stage): State
    requires r in s.requests
  {
    s.(requests := s.requests[r := s.requests[r].(stage := stage)])
  }

  /** A request that ends without a membership; an invite it has marked is then lost. */
  function Dropped(s: State, r: RequestId): State
    requires r in s.requests
  {
    s.(requests := s.requests - {r},
       lost := if s.requests[r].stage.Marked? then s.lost + {s.requests[r].invite} else s.lost)
  }

  function Apply(s: State, e: Event): State
    requires Enabled(s, e)
  {
    match e
    case Create(id, org, role, expiresAt) => s.(invites := s.invites[id := Invite(org, role, expiresAt, Pending)])
    case Find(r, user, id, _) =>
      var inv := s.invites[id];
      s.(requests := s.requests[r := Accept(id, Org.Seat(inv.org, user), inv.role, Found)])
    case ReadLimit(r) => MoveTo(s, r, HasLimit(s.limits[s.requests[r].seat.org]))
    case Count(r) =>
      var q := s.requests[r];
      if Int32(CountMembers(s.members, q.seat.org)) >= q.stage.max then Dropped(s, r) else MoveTo(s, r, Admitted)
    case Mark(r, now) =>
      var id := s.requests[r].invite;
      if IsOpenIn(s, id, now)
      then MoveTo(s, r, Marked).(invites := WithStatus(s.invites, id, Accepted(now)))
      else Dropped(s, r)
    case Join(r) =>
      var q := s.requests[r];
      if q.seat in s.members || q.seat.org in s.gone then Dropped(s, r)
      else s.(requests := s.requests - {r}, members := s.members[q.seat := q.role], granted := s.granted + [q.invite])
    case GiveUp(r) => Dropped(s, r)
    case Revoke(id, org) => s.(invites := RevokeInvite(s.invites, id, org))
    case Expire(now) => s.(invites := ExpireInvites(s.invites, now))
    case Enter(seat, role) => s.(members := s.members[seat := role])
    case Leave(seat) => s.(members := s.members - {seat})
    case SetLimit(org, max) => s.(limits := s.limits[org := max])
    case DeleteOrg(org) =>
      s.(members := map seat | seat in s.members && seat.org != org :: s.members[seat],
         limits := s.limits - {org}, gone := s.gone + {org})
  }

  const START: State := State(map[], map[], map[], {}, map[], [], {})

  ghost predicate Init(s: State) {
    s == START
  }

  /** One step of the system. */
  ghost predicate Next(s: State, e: Event, s': State) {
    Enabled(s, e) && s' == Apply(s, e)
  }

  ghost predicate IsRun(run: seq<State>, events: seq<Event>) {
    && |run| == |events| + 1
    && Init(run[0])
    && forall i :: 0 <= i < |events| ==> Next(run[i], events[i], run[i + 1])
  }

  // -- Settled invites stay settled --

  /** Invites keep their terms, and one that is no longer pending keeps its status. */
  ghost predicate Persists(t: InviteTable, t': InviteTable) {
    forall id :: id in t ==> id in t' && PersistsRow(t[id], t'[id])
  }

  predicate PersistsRow(i: Invite, i': Invite) {
    i' == i.(status := i'.status) && (i.status != Pending ==> i' == i)
  }

  lemma StepPersists(s: State, e: Event)
    requires Enabled(s, e)
    ensures Persists(s.invites, Apply(s, e).invites)
    ensures s.gone <= Apply(s, e).gone && s.granted <= Apply(s, e).granted
  {
  }

  lemma RunStepPersists(run: seq<State>, events: seq<Event>, i: nat)
    requires IsRun(run, events) && i < |events|
    ensures Persists(run[i].invites, run[i + 1].invites)
    ensures run[i].gone <= run[i + 1].gone && run[i].granted <= run[i + 1].granted
  {
    var s, e, s' := run[i], events[i], run[i + 1];
    assert Next(s, e, s');
    StepPersists(s, e);
  }

  lemma PersistsOn(t: InviteTable, t': InviteTable, t'': InviteTable)
    requires Persists(t, t') && Persists(t', t'')
    ensures Persists(t, t'')
  {
    forall id | id in t ensures id in t'' && PersistsRow(t[id], t''[id]) {
      assert PersistsRow(t[id], t'[id]);
    }
  }

  /** Accepted, revoked and expired are absorbing in every run; a row goes only with its organisation, for good. */
  lemma {:induction false} SettledForever(run: seq<State>, events: seq<Event>, i: nat, k: nat)
    requires IsRun(run, events) && i <= k < |run|
    ensures Persists(run[i].invites, run[k].invites) && run[i].gone <= run[k].gone
    decreases k
  {
    if i < k {
      SettledForever(run, events, i, k - 1);
      RunStepPersists(run, events, k - 1);
      PersistsOn(run[i].invites, run[k - 1].invites, run[k].invites);
    }
  }

  // -- One membership per invite --

  ghost predicate IsAccepted(t: InviteTable, id: InviteId) {
    id in t && t[id].status.Accepted? && t[id].status.at < t[id].expiresAt
  }

  predicate IsMarkedBy(s: State, r: RequestId, id: InviteId) {
    r in s.requests && s.requests[r].stage.Marked? && s.requests[r].invite == id
  }

  /** A request carries the terms of its invite. */
  ghost predicate RequestOk(s: State, r: RequestId)
    requires r in s.requests
  {
    var q := s.requests[r];
    q.invite in s.invites && q.seat.org == s.invites[q.invite].org && q.role == s.invites[q.invite].role
  }

  ghost predicate RequestsOk(s: State) {
    forall r :: r in s.requests ==> RequestOk(s, r)
  }

  ghost predicate MarkedOnce(s: State) {
    forall r, r', id :: IsMarkedBy(s, r, id) && IsMarkedBy(s, r', id) ==> r == r'
  }

  ghost predicate GrantedOnce(s: State) {
    forall i, j :: 0 <= i < j < |s.granted| ==> s.granted[i] != s.granted[j]
  }

  ghost predicate HasMark(s: State, id: InviteId) {
    exists r :: IsMarkedBy(s, r, id)
  }

  /** An invite is accepted exactly when it was granted, is being joined or was lost, and only one of these. */
  ghost predicate Accounted(s: State, id: InviteId) {
    && (IsAccepted(s.invites, id) <==> id in s.granted || id in s.lost || HasMark(s, id))
    && (id in s.invites && s.invites[id].status.Accepted? ==> IsAccepted(s.invites, id))
    && !(id in s.granted && id in s.lost) && !(id in s.granted && HasMark(s, id)) && !(id in s.lost && HasMark(s, id))
  }

  ghost predicate Inv(s: State) {
    RequestsOk(s) && MarkedOnce(s) && GrantedOnce(s) && forall id :: Accounted(s, id)
  }

  lemma StepKeepsRequests(s: State, e: Event)
    requires Inv(s) && Enabled(s, e)
    ensures RequestsOk(Apply(s, e))
  {
    StepPersists(s, e);
    var s' := Apply(s, e);
    forall r | r in s'.requests ensures RequestOk(s', r) {
      assert r in s.requests ==> RequestOk(s, r);
    }
  }

  /** A step changes who has marked what only by marking an open invite or by ending a marked request. */
  lemma StepMarks(s: State, e: Event, r: RequestId, id: InviteId)
    requires Enabled(s, e)
    ensures var s' := Apply(s, e);
            IsMarkedBy(s', r, id)
            <==> || (e.Mark? && e.r == r && s.requests[r].invite == id && IsOpenIn(s, id, e.now))
                 || (IsMarkedBy(s, r, id) && !((e.Join? || e.GiveUp?) && e.r == r))
  {
  }

  lemma StepKeepsMarkedOnce(s: State, e: Event)
    requires Inv(s) && Enabled(s, e)
    ensures MarkedOnce(Apply(s, e))
  {
    var s' := Apply(s, e);
    forall r, r', id | IsMarkedBy(s', r, id) && IsMarkedBy(s', r', id) ensures r == r' {
      StepMarks(s, e, r, id);
      StepMarks(s, e, r', id);
      assert Accounted(s, id);
      assert IsOpenIn(s, id, if e.Mark? then e.now else 0) ==> !HasMark(s, id);
    }
  }

  lemma StepKeepsGrantedOnce(s: State, e: Event)
    requires Inv(s) && Enabled(s, e)
    ensures GrantedOnce(Apply(s, e))
  {
    if e.Join? {
      var id := s.requests[e.r].invite;
      assert Accounted(s, id) && IsMarkedBy(s, e.r, id);
    }
  }

  lemma MarkIsNew(s: State, e: Event, id: InviteId)
    requires Inv(s) && Enabled(s, e)
    ensures var s' := Apply(s, e);
            HasMark(s', id)
            <==> || (e.Mark? && s.requests[e.r].invite == id && IsOpenIn(s, id, e.now))
                 || (HasMark(s, id) && !((e.Join? || e.GiveUp?) && IsMarkedBy(s, e.r, id)))
  {
    var s' := Apply(s, e);
    if HasMark(s', id) {
      var r :| IsMarkedBy(s', r, id);
      StepMarks(s, e, r, id);
    }
    if e.Mark? && s.requests[e.r].invite == id && IsOpenIn(s, id, e.now) {
      StepMarks(s, e, e.r, id);
      assert IsMarkedBy(s', e.r, id);
    } else if HasMark(s, id) && !((e.Join? || e.GiveUp?) && IsMarkedBy(s, e.r, id)) {
      var r :| IsMarkedBy(s, r, id);
      StepMarks(s, e, r, id);
      assert IsMarkedBy(s', r, id);
    }
  }

  /** What a step does to the accepted invites. */
  lemma StepAccepts(s: State, e: Event, id: InviteId)
    requires Inv(s) && Enabled(s, e)
    ensures var s' := Apply(s, e);
            && (IsAccepted(s'.invites, id)
                <==> || IsAccepted(s.invites, id)
                     || (e.Mark? && s.requests[e.r].invite == id && IsOpenIn(s, id, e.now)))
            && (id in s'.invites && s'.invites[id].status.Accepted? ==> IsAccepted(s'.invites, id))
  {
    assert Accounted(s, id);
  }

  lemma StepKeepsAccounted(s: State, e: Event, id: InviteId)
    requires Inv(s) && Enabled(s, e)
    ensures Accounted(Apply(s, e), id)
  {
    assert Accounted(s, id);
    StepAccepts(s, e, id);
    MarkIsNew(s, e, id);
    if (e.Join? || e.GiveUp?) && IsMarkedBy(s, e.r, id) {
      assert HasMark(s, id);
    }
  }

  lemma StepKeepsInv(s: State, e: Event)
    requires Inv(s) && Enabled(s, e)
    ensures Inv(Apply(s, e))
  {
    StepKeepsRequests(s, e);
    StepKeepsMarkedOnce(s, e);
    StepKeepsGrantedOnce(s, e);
    forall id ensures Accounted(Apply(s, e), id) {
      StepKeepsAccounted(s, e, id);
    }
  }

  lemma {:induction false} RunKeepsInv(run: seq<State>, events: seq<Event>, i: nat)
    requires IsRun(run, events) && i < |run|
    ensures Inv(run[i])
  {
    if i > 0 {
      RunKeepsInv(run, events, i - 1);
      assert Next(run[i - 1], events[i - 1], run[i - 1 + 1]);
      StepKeepsInv(run[i - 1], events[i - 1]);
    }
  }

  ghost predicate Grants(s: State, s': State, id: InviteId) {
    s'.granted == s.granted + [id]
  }

  /**
   Each invite creates at most one membership: of all the steps of a run, at most one grants it, and that
   step seats someone in the invite's organisation with the invite's role, the invite being accepted.
   */
  lemma OneMembershipPerInvite(run: seq<State>, events: seq<Event>, i: nat, j: nat, id: InviteId)
    requires IsRun(run, events) && i < |events| && j < |events|
    requires Grants(run[i], run[i + 1], id) && Grants(run[j], run[j + 1], id)
    ensures i == j
    ensures IsAccepted(run[i].invites, id)
    ensures exists seat: Org.Seat ::
      && seat.org == run[i].invites[id].org && seat !in run[i].members
      && run[i + 1].members == run[i].members[seat := run[i].invites[id].role]
  {
    RunKeepsInv(run, events, |events|);
    StaysGranted(run, events, i, |events|, id);
    StaysGranted(run, events, j, |events|, id);
    if i < j {
      GrantedGrows(run, events, i + 1, j);
    } else if j < i {
      GrantedGrows(run, events, j + 1, i);
    }
    RunKeepsInv(run, events, i);
    assert Next(run[i], events[i], run[i + 1]);
    GrantSeats(run[i], events[i], id);
  }

  lemma GrantSeats(s: State, e: Event, id: InviteId)
    requires Inv(s) && Enabled(s, e) && Grants(s, Apply(s, e), id)
    ensures IsAccepted(s.invites, id)
    ensures exists seat: Org.Seat ::
      && seat.org == s.invites[id].org && seat !in s.members
      && Apply(s, e).members == s.members[seat := s.invites[id].role]
  {
    assert |Apply(s, e).granted| > |s.granted| && Apply(s, e).granted[|s.granted|] == id;
    assert e.Join? && IsMarkedBy(s, e.r, id);
    assert Accounted(s, id) && RequestOk(s, e.r);
  }

  lemma StaysGranted(run: seq<State>, events: seq<Event>, i: nat, k: nat, id: InviteId)
    requires IsRun(run, events) && i < k < |run| && Grants(run[i], run[i + 1], id)
    ensures |run[i].granted| < |run[k].granted| && run[k].granted[|run[i].granted|] == id
  {
    GrantedGrows(run, events, i + 1, k);
    assert run[i + 1].granted[|run[i].granted|] == id;
  }

  lemma {:induction false} GrantedGrows(run: seq<State>, events: seq<Event>, i: nat, k: nat)
    requires IsRun(run, events) && i <= k < |run|
    ensures run[i].granted <= run[k].granted
    decreases k
  {
    if i < k {
      GrantedGrows(run, events, i, k - 1);
      RunStepPersists(run, events, k - 1);
    }
  }

  // -- The member limit --

  lemma Int32Exact(n: nat)
    ensures Int32(n) == n <==> n < 0x8000_0000
    ensures -0x8000_0000 <= Int32(n) < 0x8000_0000 && (n - Int32(n)) % 0x1_0000_0000 == 0
  {
  }

  lemma SeatTaken(m: Org.Members, seat: Org.Seat, role: Org.Role, org: Org.OrgId)
    ensures CountMembers(m[seat := role], org)
            == CountMembers(m, org) + if seat.org == org && seat !in m then 1 else 0
  {
    var m' := m[seat := role];
    assert SeatsOf(m', org) == if seat.org == org then SeatsOf(m, org) + {seat} else SeatsOf(m, org);
  }

  lemma SeatLeft(m: Org.Members, seat: Org.Seat, org: Org.OrgId)
    ensures CountMembers(m - {seat}, org) <= CountMembers(m, org)
  {
    assert SeatsOf(m - {seat}, org) == SeatsOf(m, org) - {seat};
  }

  /** The Accepts that have passed the limit check of an organisation and have not finished. */
  function PastCheck(s: State, org: Org.OrgId): set<RequestId> {
    set r | r in s.requests && s.requests[r].seat.org == org
            && (s.requests[r].stage.Admitted? || s.requests[r].stage.Marked?)
  }

  /** The limit is fixed, nobody enters except by invite, and requests carry the limit they read. */
  ghost predicate Steady(s: State, e: Event, org: Org.OrgId, max: int, slots: nat) {
    && org in s.limits && s.limits[org] == max
    && |PastCheck(s, org)| <= slots
    && !(e.Enter? && e.entrant.org == org) && !(e.SetLimit? && e.org == org)
  }

  ghost predicate LimitsRead(s: State, org: Org.OrgId, max: int) {
    forall r | r in s.requests && s.requests[r].seat.org == org && s.requests[r].stage.HasLimit? ::
      s.requests[r].stage.max == max
  }

  /** The part of a full organisation's overshoot that has happened or can still happen. */
  ghost predicate Bounded(s: State, org: Org.OrgId, max: int, slots: nat) {
    && LimitsRead(s, org, max)
    && (CountMembers(s.members, org) >= max ==>
          CountMembers(s.members, org) + |PastCheck(s, org)| <= max + slots - 1)
  }

  lemma StepPastCheck(s: State, e: Event, org: Org.OrgId)
    requires Enabled(s, e)
    ensures var s' := Apply(s, e);
            if e.Count? && s.requests[e.r].seat.org == org && e.r in s'.requests
            then PastCheck(s', org) == PastCheck(s, org) + {e.r}
            else PastCheck(s', org) <= PastCheck(s, org)
    ensures e.Join? && s.requests[e.r].seat.org == org ==>
              PastCheck(Apply(s, e), org) == PastCheck(s, org) - {e.r} && e.r in PastCheck(s, org)
  {
  }

  lemma StepMembers(s: State, e: Event, org: Org.OrgId)
    requires Enabled(s, e) && !(e.Enter? && e.entrant.org == org)
    ensures CountMembers(Apply(s, e).members, org)
            <= CountMembers(s.members, org) + if e.Join? && s.requests[e.r].seat.org == org then 1 else 0
  {
    match e
    case Join(r) => SeatTaken(s.members, s.requests[r].seat, s.requests[r].role, org);
    case Enter(seat, role) => SeatTaken(s.members, seat, role, org);
    case Leave(seat) => SeatLeft(s.members, seat, org);
    case DeleteOrg(_) => SubsetSize(SeatsOf(Apply(s, e).members, org), SeatsOf(s.members, org));
    case _ =>
  }

  lemma StepKeepsBounded(s: State, e: Event, org: Org.OrgId, max: int, slots: nat)
    requires Enabled(s, e) && Steady(s, e, org, max, slots) && Bounded(s, org, max, slots)
    requires max + slots <= 0x8000_0000
    ensures Bounded(Apply(s, e), org, max, slots)
  {
    var s' := Apply(s, e);
    StepPastCheck(s, e, org);
    StepMembers(s, e, org);
    Int32Exact(CountMembers(s.members, org));
    if e.Count? && s.requests[e.r].seat.org == org && e.r in s'.requests {
      assert CountMembers(s.members, org) < max;
    } else {
      SubsetSize(PastCheck(s', org), PastCheck(s, org));
    }
  }

  lemma RunStepBounded(run: seq<State>, events: seq<Event>, i: nat, org: Org.OrgId, max: int, slots: nat)
    requires IsRun(run, events) && i < |events| && max + slots <= 0x8000_0000
    requires Steady(run[i], events[i], org, max, slots) && Bounded(run[i], org, max, slots)
    ensures Bounded(run[i + 1], org, max, slots)
  {
    var s, s' := run[i], run[i + 1];
    assert Next(s, events[i], s');
    StepKeepsBounded(s, events[i], org, max, slots);
  }

  /**
   With the limit fixed and at most `slots` Accepts past the check at once, an organisation never holds more
   than its limit plus `slots - 1` members. With one Accept at a time that is the limit itself.
   */
  lemma {:induction false} OvershootBound(
    run: seq<State>, events: seq<Event>, i: nat, k: nat, org: Org.OrgId, max: int, slots: nat)
    requires IsRun(run, events) && i <= k < |run|
    requires slots >= 1 && max + slots <= 0x8000_0000
    requires CountMembers(run[i].members, org) <= max + slots - 1
    requires PastCheck(run[i], org) == {} && LimitsRead(run[i], org, max)
    requires forall j :: i <= j < k ==> Steady(run[j], events[j], org, max, slots)
    ensures Bounded(run[k], org, max, slots)
    ensures CountMembers(run[k].members, org) <= max + slots - 1
    decreases k
  {
    if i < k {
      OvershootBound(run, events, i, k - 1, org, max, slots);
      RunStepBounded(run, events, k - 1, org, max, slots);
    }
  }

  // -- Accept on its own --

  datatype Reply = Joined | InvalidToken | Full | Failed | Forbidden | Done

  datatype Tables = Tables(invites: InviteTable, members: Org.Members, limits: map<Org.OrgId, int>)

  function AcceptReply(t: Tables, user: Org.UserId, id: InviteId, now: int): Reply {
    if !IsOpen(t.invites, id, now) then InvalidToken
    else
      var org := t.invites[id].org;
      if org !in t.limits then Failed
      else if Int32(CountMembers(t.members, org)) >= t.limits[org] then Full
      else if Org.Seat(org, user) in t.members then Failed
      else Joined
  }

  /** The marking comes before the insert, which fails for a user who is a member already. */
  function AcceptApply(t: Tables, user: Org.UserId, id: InviteId, now: int): Tables {
    if !IsOpen(t.invites, id, now) then t
    else
      var inv := t.invites[id];
      if inv.org !in t.limits || Int32(CountMembers(t.members, inv.org)) >= t.limits[inv.org] then t
      else
        var marked := t.(invites := WithStatus(t.invites, id, Accepted(now)));
        var seat := Org.Seat(inv.org, user);
        if seat in t.members then marked else marked.(members := t.members[seat := inv.role])
  }

  ghost predicate Within(t: Tables, org: Org.OrgId) {
    org in t.limits && CountMembers(t.members, org) <= t.limits[org]
  }

  /**
   A serial Accept that joins ends within the organisation's current limit exactly when the count still fits
   in an int32, and leaves the other organisations as they were.
   */
  lemma AcceptStaysWithinExactlyWhen(t: Tables, user: Org.UserId, id: InviteId, now: int, org: Org.OrgId)
    requires forall o :: o in t.limits ==> IsInt32(t.limits[o])
    requires AcceptReply(t, user, id, now) == Joined
    ensures var t' := AcceptApply(t, user, id, now);
            if org == t.invites[id].org
            then Within(t', org) <==> CountMembers(t.members, org) < 0x8000_0000
            else CountMembers(t'.members, org) == CountMembers(t.members, org)
  {
    var inv := t.invites[id];
    Int32Exact(CountMembers(t.members, inv.org));
    SeatTaken(t.members, Org.Seat(inv.org, user), inv.role, org);
  }

  /** The rows there are: those of deleted organisations are not. */
  function RowsOf(s: State): InviteTable {
    map id | id in s.invites && s.invites[id].org !in s.gone :: s.invites[id]
  }

  function TablesOf(s: State): Tables {
    Tables(RowsOf(s), s.members, s.limits)
  }

  /** The step relation. */
  ghost function Steps(): (State, Event, State) -> bool {
    (s, e, s') => Next(s, e, s')
  }

  /** The steps of an Accept that nothing interrupts, by how it ends. */
  function AcceptSteps(t: Tables, r: RequestId, user: Org.UserId, id: InviteId, now: int): seq<Event> {
    if !IsOpen(t.invites, id, now) then []
    else if t.invites[id].org !in t.limits then [Find(r, user, id, now), GiveUp(r)]
    else if AcceptReply(t, user, id, now) == Full then [Find(r, user, id, now), ReadLimit(r), Count(r)]
    else [Find(r, user, id, now), ReadLimit(r), Count(r)] + [Mark(r, now)] + [Join(r)]
  }

  lemma CheckSteps(s: State, r: RequestId, user: Org.UserId, id: InviteId, now: int) returns (s': State)
    requires r !in s.requests && IsOpenIn(s, id, now) && s.invites[id].org in s.limits
    ensures Leads(Steps(), s, [Find(r, user, id, now), ReadLimit(r), Count(r)], s')
    ensures var inv := s.invites[id];
            if Int32(CountMembers(s.members, inv.org)) >= s.limits[inv.org] then s' == s
            else s' == s.(requests := s.requests[r := Accept(id, Org.Seat(inv.org, user), inv.role, Admitted)])
  {
    var s1 := Apply(s, Find(r, user, id, now));
    var s2 := Apply(s1, ReadLimit(r));
    s' := Apply(s2, Count(r));
    assert Leads(Steps(), s, [Find(r, user, id, now), ReadLimit(r), Count(r)], s') by {
      assert Steps()(s, Find(r, user, id, now), s1) && Steps()(s1, ReadLimit(r), s2) && Steps()(s2, Count(r), s');
      ThreeSteps(Steps(), s, Find(r, user, id, now), s1, ReadLimit(r), s2, Count(r), s');
    }
    assert s2.requests - {r} == s.requests;
  }

  lemma MarkedRows(s: State, id: InviteId, status: Status)
    requires id in s.invites && s.invites[id].org !in s.gone
    ensures RowsOf(s.(invites := WithStatus(s.invites, id, status))) == WithStatus(RowsOf(s), id, status)
  {
  }

  lemma MarkAndJoin(s: State, r: RequestId, now: int) returns (s': State)
    requires r in s.requests && s.requests[r].stage.Admitted? && IsOpenIn(s, s.requests[r].invite, now)
    requires s.requests[r].seat.org == s.invites[s.requests[r].invite].org
    ensures Leads(Steps(), s, [Mark(r, now)] + [Join(r)], s')
    ensures var q := s.requests[r];
            && s'.requests == s.requests - {r} && s'.limits == s.limits
            && RowsOf(s') == WithStatus(RowsOf(s), q.invite, Accepted(now))
            && (if q.seat in s.members then s'.members == s.members && s'.granted == s.granted
                else s'.members == s.members[q.seat := q.role] && s'.granted == s.granted + [q.invite])
            && s'.gone == s.gone && s'.invites == WithStatus(s.invites, q.invite, Accepted(now))
  {
    var q := s.requests[r];
    var s1 := Apply(s, Mark(r, now));
    s' := Apply(s1, Join(r));
    assert Steps()(s, Mark(r, now), s1) && Steps()(s1, Join(r), s');
    TwoSteps(Steps(), s, Mark(r, now), s1, Join(r), s');
    assert [Mark(r, now)] + [Join(r)] == [Mark(r, now), Join(r)];
    assert s1.requests - {r} == s.requests - {r};
    MarkedRows(s, q.invite, Accepted(now));
  }

  lemma AcceptUnlimited(s: State, r: RequestId, user: Org.UserId, id: InviteId, now: int) returns (s': State)
    requires r !in s.requests && IsOpenIn(s, id, now)
    ensures Leads(Steps(), s, [Find(r, user, id, now), GiveUp(r)], s') && s' == s
  {
    var s1 := Apply(s, Find(r, user, id, now));
    s' := Apply(s1, GiveUp(r));
    assert Steps()(s, Find(r, user, id, now), s1) && Steps()(s1, GiveUp(r), s');
    TwoSteps(Steps(), s, Find(r, user, id, now), s1, GiveUp(r), s');
    assert s'.requests == s.requests;
  }

  lemma AcceptThrough(s: State, r: RequestId, user: Org.UserId, id: InviteId, now: int) returns (s': State)
    requires r !in s.requests && IsOpenIn(s, id, now) && s.invites[id].org in s.limits
    requires Int32(CountMembers(s.members, s.invites[id].org)) < s.limits[s.invites[id].org]
    ensures Leads(Steps(), s, [Find(r, user, id, now), ReadLimit(r), Count(r)] + [Mark(r, now)] + [Join(r)], s')
    ensures TablesOf(s') == AcceptApply(TablesOf(s), user, id, now) && s'.requests == s.requests
    ensures if Org.Seat(s.invites[id].org, user) in s.members then s'.granted == s.granted else Grants(s, s', id)
  {
    var mid := CheckSteps(s, r, user, id, now);
    assert RowsOf(mid) == RowsOf(s);
    s' := MarkAndJoin(mid, r, now);
    var checks := [Find(r, user, id, now), ReadLimit(r), Count(r)];
    Paths.Joined(Steps(), s, checks, mid, [Mark(r, now)] + [Join(r)], s');
    assert checks + ([Mark(r, now)] + [Join(r)]) == checks + [Mark(r, now)] + [Join(r)];
    assert s'.requests == s.requests;
  }

  /** An Accept that nothing interrupts does what AcceptApply says, however it ends. */
  lemma UninterruptedAccept(s: State, r: RequestId, user: Org.UserId, id: InviteId, now: int) returns (s': State)
    requires r !in s.requests
    ensures Leads(Steps(), s, AcceptSteps(TablesOf(s), r, user, id, now), s')
    ensures TablesOf(s') == AcceptApply(TablesOf(s), user, id, now) && s'.requests == s.requests
    ensures if AcceptReply(TablesOf(s), user, id, now) == Joined then Grants(s, s', id) else s'.granted == s.granted
  {
    if !IsOpenIn(s, id, now) {
      s' := s;
    } else if s.invites[id].org !in s.limits {
      s' := AcceptUnlimited(s, r, user, id, now);
    } else if Int32(CountMembers(s.members, s.invites[id].org)) >= s.limits[s.invites[id].org] {
      s' := CheckSteps(s, r, user, id, now);
    } else {
      s' := AcceptThrough(s, r, user, id, now);
    }
  }

  /** Stretches keep the invariant too. */
  lemma {:induction false} StretchKeepsInv(s: State, events: seq<Event>, s': State)
    requires Inv(s) && Leads(Steps(), s, events, s')
    ensures Inv(s')
    decreases |events|
  {
    if events != [] {
      var n := |events| - 1;
      var mid :| Leads(Steps(), s, events[..n], mid) && Steps()(mid, events[n], s');
      StretchKeepsInv(s, events[..n], mid);
      StepKeepsInv(mid, events[n]);
    }
  }

  // -- The handlers on the tables they update in place --

  class InviteStore {
    var invites: InviteTable
    var members: Org.Members
    var limits: map<Org.OrgId, int>

    ghost function View(): Tables
      reads this
    {
      Tables(invites, members, limits)
    }

    constructor ()
      ensures View() == Tables(map[], map[], map[])
    {
      invites, members, limits := map[], map[], map[];
    }

    /** An Accept with nothing else running; the clock is read once. */
    method Accept(user: Org.UserId, id: InviteId, now: int) returns (reply: Reply)
      requires forall o :: o in limits ==> IsInt32(limits[o])
      modifies this
      ensures View() == AcceptApply(old(View()), user, id, now)
      ensures reply == AcceptReply(old(View()), user, id, now)
      ensures reply.InvalidToken? <==>
                id !in old(invites) || old(invites)[id].status != Pending || old(invites)[id].expiresAt <= now
      ensures !reply.InvalidToken? ==>
                var inv := old(invites)[id];
                var seat, fits := Org.Seat(inv.org, user),
                                  inv.org in limits && Int32(CountMembers(old(members), inv.org)) < limits[inv.org];
                && (reply.Full? <==> inv.org in limits && !fits)
                && (reply.Joined? <==> fits && seat !in old(members))
                && (reply.Failed? <==> inv.org !in limits || (fits && seat in old(members)))
                && members == (if reply.Joined? then old(members)[seat := inv.role] else old(members))
                && invites == if fits then old(invites)[id := inv.(status := Accepted(now))] else old(invites)
      ensures reply.InvalidToken? ==> members == old(members) && invites == old(invites)
      ensures limits == old(limits) && Persists(old(invites), invites)
      ensures forall org :: org in limits && CountMembers(old(members), org) < 0x8000_0000 ==>
                CountMembers(members, org) == CountMembers(old(members), org) || Within(View(), org)
    {
      ghost var before := View();
      if id !in invites || invites[id].status != Pending || invites[id].expiresAt <= now {
        return InvalidToken;
      }
      var inv := invites[id];
      if inv.org !in limits {
        return Failed;
      }
      var count := CountMembers(members, inv.org);
      if Int32(count) >= limits[inv.org] {
        return Full;
      }
      invites := WithStatus(invites, id, Accepted(now));
      var seat := Org.Seat(inv.org, user);
      if seat in members {
        return Failed;
      }
      members := members[seat := inv.role];
      forall org ensures org in limits && CountMembers(old(members), org) < 0x8000_0000 ==>
          CountMembers(members, org) == CountMembers(old(members), org) || Within(View(), org) {
        AcceptStaysWithinExactlyWhen(before, user, id, now, org);
      }
      return Joined;
    }

    /** A new invite, good for seven days, if an owner or admin asks for it and the organisation is not full. */
    method Create(actor: Org.UserId, id: InviteId, org: Org.OrgId, role: Org.Role, now: int) returns (reply: Reply)
      requires id !in invites
      modifies this
      ensures reply.Forbidden? <==> Org.Seat(org, actor) !in members || members[Org.Seat(org, actor)] == Org.Member
      ensures reply.Done? <==>
                !reply.Forbidden? && org in limits && Int32(CountMembers(members, org)) < limits[org]
      ensures reply.Full? <==>
                !reply.Forbidden? && org in limits && Int32(CountMembers(members, org)) >= limits[org]
      ensures members == old(members) && limits == old(limits) && Persists(old(invites), invites)
      ensures invites == if reply.Done? then old(invites)[id := Invite(org, role, now + 604_800_000_000, Pending)]
                         else old(invites)
    {
      if Org.Seat(org, actor) !in members || members[Org.Seat(org, actor)] == Org.Member {
        return Forbidden;
      }
      if org !in limits {
        return Failed;
      }
      var count := CountMembers(members, org);
      if Int32(count) >= limits[org] {
        return Full;
      }
      invites := invites[id := Invite(org, role, now + INVITE_TTL, Pending)];
      return Done;
    }

    /** Answers Done also where there is nothing to revoke. */
    method Revoke(actor: Org.UserId, id: InviteId, org: Org.OrgId) returns (reply: Reply)
      modifies this
      ensures reply == if Org.Seat(org, actor) in members && members[Org.Seat(org, actor)] in {Org.Owner, Org.Admin}
                       then Done else Forbidden
      ensures members == old(members) && limits == old(limits) && Persists(old(invites), invites)
      ensures invites == if reply.Done? then RevokeInvite(old(invites), id, org) else old(invites)
      ensures invites == if reply.Done? && id in old(invites) && old(invites)[id].org == org
                            && old(invites)[id].status == Pending
                         then old(invites)[id := old(invites)[id].(status := Revoked)] else old(invites)
    {
      if Org.Seat(org, actor) !in members || members[Org.Seat(org, actor)] == Org.Member {
        return Forbidden;
      }
      if id in invites && invites[id].org == org && invites[id].status == Pending {
        invites := invites[id := invites[id].(status := Revoked)];
      }
      return Done;
    }

    /** DeleteExpiredInvites, which marks the rows and deletes none. */
    method ExpirePending(now: int)
      modifies this
      ensures members == old(members) && limits == old(limits)
      ensures invites.Keys == old(invites).Keys && invites == ExpireInvites(old(invites), now)
      ensures forall id :: id in invites ==>
                invites[id] == if old(invites)[id].status == Pending && old(invites)[id].expiresAt < now
                               then old(invites)[id].(status := Expired) else old(invites)[id]
    {
      invites := map id | id in invites ::
        if invites[id].status == Pending && invites[id].expiresAt < now then invites[id].(status := Expired)
        else invites[id];
    }
  }
}
