/**
 How far Accepts that run at once can take an organisation above its limit: as far as there are Accepts past the
 check with invites and seats of their own.
 */
module InviteCrowds {
  import opened Paths
  import opened Invites

  // -- What the Accepts past the check can still do --

  /** The Accept can still seat its user, marking its invite at time `now` if it has not marked it yet. */
  predicate CanJoin(s: State, r: RequestId, org: Org.OrgId, now: int) {
    && r in s.requests && s.requests[r].seat.org == org && org !in s.gone && s.requests[r].seat !in s.members
    && (s.requests[r].stage.Marked? || (s.requests[r].stage.Admitted? && IsOpenIn(s, s.requests[r].invite, now)))
  }

  predicate AreApart(s: State, r: RequestId, r': RequestId) {
    && r in s.requests && r' in s.requests
    && s.requests[r].seat != s.requests[r'].seat && s.requests[r].invite != s.requests[r'].invite
  }

  /** Accepts past the check of one organisation, each with a seat and an invite of its own. */
  ghost predicate IsParty(s: State, rs: set<RequestId>, org: Org.OrgId, now: int) {
    && (forall r :: r in rs ==> CanJoin(s, r, org, now))
    && (forall r, r' :: r in rs && r' in rs && r != r' ==> AreApart(s, r, r'))
  }

  /** The steps by which an Accept past the check ends, at one clock reading. */
  predicate IsFinish(e: Event, now: int) {
    e.Join? || (e.Mark? && e.now == now)
  }

  ghost predicate Finishes(s: State, events: seq<Event>, s': State, now: int) {
    Leads(Steps(), s, events, s') && forall e :: e in events ==> IsFinish(e, now)
  }

  // -- A party can join --

  /** Request `r` has ended by seating its user; of the invites only its own may have changed, and only in status. */
  ghost predicate HasSeated(s: State, s': State, r: RequestId)
    requires r in s.requests
  {
    var q := s.requests[r];
    && s'.requests == s.requests - {r} && s'.members == s.members[q.seat := q.role]
    && s'.gone == s.gone && s'.limits == s.limits
    && q.invite in s.invites && q.invite in s'.invites
    && s'.invites == s.invites[q.invite := s'.invites[q.invite]]
    && s'.invites[q.invite] == s.invites[q.invite].(status := s'.invites[q.invite].status)
  }

  lemma MarkedJoins(s: State, r: RequestId) returns (s': State)
    requires r in s.requests && s.requests[r].stage.Marked? && s.requests[r].seat !in s.members
    requires s.requests[r].seat.org !in s.gone && s.requests[r].invite in s.invites
    ensures Steps()(s, Join(r), s') && HasSeated(s, s', r)
  {
    s' := Apply(s, Join(r));
  }

  lemma OneJoins(s: State, r: RequestId, org: Org.OrgId, now: int) returns (events: seq<Event>, s': State)
    requires RequestsOk(s) && CanJoin(s, r, org, now)
    ensures Finishes(s, events, s', now) && HasSeated(s, s', r)
  {
    assert RequestOk(s, r);
    if s.requests[r].stage.Marked? {
      s' := MarkedJoins(s, r);
      Then(Steps(), s, [], s, Join(r), s');
      events := [] + [Join(r)];
    } else {
      s' := MarkAndJoin(s, r, now);
      events := [Mark(r, now)] + [Join(r)];
    }
  }

  lemma RestIsParty(s: State, s': State, rs: set<RequestId>, r: RequestId, org: Org.OrgId, now: int)
    requires IsParty(s, rs, org, now) && r in rs && r in s.requests && RequestsOk(s) && HasSeated(s, s', r)
    ensures IsParty(s', rs - {r}, org, now) && RequestsOk(s')
  {
    forall x | x in rs - {r} ensures CanJoin(s', x, org, now) {
      assert CanJoin(s, x, org, now) && AreApart(s, x, r);
    }
    forall x, y | x in rs - {r} && y in rs - {r} && x != y ensures AreApart(s', x, y) {
      assert AreApart(s, x, y);
    }
    forall x | x in s'.requests ensures RequestOk(s', x) {
      assert RequestOk(s, x);
    }
  }

  /** Every one of a party can be seated. */
  lemma {:induction false} PartyJoins(s: State, rs: set<RequestId>, org: Org.OrgId, now: int)
    returns (events: seq<Event>, s': State)
    requires RequestsOk(s) && IsParty(s, rs, org, now)
    ensures Finishes(s, events, s', now) && s'.limits == s.limits
    ensures CountMembers(s'.members, org) == CountMembers(s.members, org) + |rs|
    decreases rs
  {
    if rs == {} {
      events, s' := [], s;
    } else {
      var r :| r in rs;
      var first, s1 := OneJoins(s, r, org, now);
      RestIsParty(s, s1, rs, r, org, now);
      SeatTaken(s.members, s.requests[r].seat, s.requests[r].role, org);
      var rest;
      rest, s' := PartyJoins(s1, rs - {r}, org, now);
      events := first + rest;
      Paths.Joined(Steps(), s, first, s1, rest, s');
    }
  }

  // -- Whoever joins is a party --

  /** Where the requests of `s` have got to in `s'`: no further than marking what was open. */
  ghost predicate Descends(s: State, s': State, now: int) {
    && s'.gone == s.gone && s'.limits == s.limits && s.members.Keys <= s'.members.Keys
    && (forall id :: IsOpenIn(s', id, now) ==> IsOpenIn(s, id, now))
    && (forall r :: r in s'.requests ==> r in s.requests && DescendsRequest(s, s.requests[r], s'.requests[r], now))
  }

  predicate DescendsRequest(s: State, q: Accept, q': Accept, now: int) {
    && q'.seat == q.seat && q'.invite == q.invite && q'.role == q.role
    && (q' == q || (q'.stage.Marked? && q.stage.Admitted? && IsOpenIn(s, q.invite, now)))
  }

  lemma DescendsOn(s: State, mid: State, e: Event, s': State, now: int)
    requires Descends(s, mid, now) && Next(mid, e, s') && IsFinish(e, now)
    ensures Descends(s, s', now)
  {
    forall id | IsOpenIn(s', id, now) ensures IsOpenIn(s, id, now) {
      assert IsOpenIn(mid, id, now);
    }
    forall r | r in s'.requests ensures r in s.requests && DescendsRequest(s, s.requests[r], s'.requests[r], now) {
      assert r in mid.requests && DescendsRequest(s, s.requests[r], mid.requests[r], now);
    }
  }

  /** The requests `rs` of `s` are those that have joined the organisation on the way to `s'`. */
  ghost predicate HaveJoined(s: State, s': State, rs: set<RequestId>, org: Org.OrgId, now: int) {
    && IsParty(s, rs, org, now) && CountMembers(s'.members, org) == CountMembers(s.members, org) + |rs|
    && forall r :: r in rs ==>
         && r in s.requests && s.requests[r].seat in s'.members && s.requests[r].invite in s'.granted
         && r !in s'.requests
  }

  /** The step seats someone in the organisation. */
  predicate Seats(s: State, e: Event, org: Org.OrgId)
    requires Enabled(s, e)
  {
    && e.Join? && s.requests[e.r].seat.org == org
    && s.requests[e.r].seat !in s.members && s.requests[e.r].seat.org !in s.gone
  }

  lemma OthersJoinNot(s: State, mid: State, e: Event, s': State, rs: set<RequestId>, org: Org.OrgId, now: int)
    requires HaveJoined(s, mid, rs, org, now) && Next(mid, e, s') && IsFinish(e, now) && !Seats(mid, e, org)
    ensures HaveJoined(s, s', rs, org, now)
  {
    if e.Join? {
      SeatTaken(mid.members, mid.requests[e.r].seat, mid.requests[e.r].role, org);
    }
  }

  lemma OneMoreJoins(s: State, mid: State, e: Event, s': State, rs: set<RequestId>, org: Org.OrgId, now: int)
    requires Inv(mid) && Descends(s, mid, now) && HaveJoined(s, mid, rs, org, now)
    requires Next(mid, e, s') && Seats(mid, e, org)
    ensures HaveJoined(s, s', rs + {e.r}, org, now)
  {
    var r := e.r;
    var q := mid.requests[r];
    assert DescendsRequest(s, s.requests[r], q, now);
    assert CanJoin(s, r, org, now);
    SeatTaken(mid.members, q.seat, q.role, org);
    assert Accounted(mid, q.invite) && IsMarkedBy(mid, r, q.invite);
    assert q.invite !in mid.granted;
    forall x | x in rs ensures AreApart(s, x, r) && AreApart(s, r, x) {
      assert s.requests[x].seat in mid.members && s.requests[x].invite in mid.granted;
    }
  }

  lemma {:induction false} JoinersAreParty(s: State, events: seq<Event>, s': State, org: Org.OrgId, now: int)
    returns (rs: set<RequestId>)
    requires Inv(s) && Finishes(s, events, s', now)
    ensures Inv(s') && Descends(s, s', now) && HaveJoined(s, s', rs, org, now)
    decreases |events|
  {
    if events == [] {
      rs := {};
    } else {
      var n := |events| - 1;
      var e := events[n];
      var mid :| Leads(Steps(), s, events[..n], mid) && Steps()(mid, e, s');
      rs := JoinersAreParty(s, events[..n], mid, org, now);
      assert Next(mid, e, s') && IsFinish(e, now);
      StepKeepsInv(mid, e);
      DescendsOn(s, mid, e, s', now);
      if Seats(mid, e, org) {
        OneMoreJoins(s, mid, e, s', rs, org, now);
        rs := rs + {e.r};
      } else {
        OthersJoinNot(s, mid, e, s', rs, org, now);
      }
    }
  }

  ghost predicate CanExceed(s: State, org: Org.OrgId, now: int, limit: int) {
    exists events, s' :: Finishes(s, events, s', now) && CountMembers(s'.members, org) > limit
  }

  ghost predicate HasParty(s: State, org: Org.OrgId, now: int, limit: int) {
    exists rs :: IsParty(s, rs, org, now) && CountMembers(s.members, org) + |rs| > limit
  }

  /**
   The Accepts past the check can take an organisation above its limit exactly when there is a party of them
   larger than its free seats.
   */
  lemma PartyExceedsExactlyWhen(s: State, org: Org.OrgId, now: int, limit: int)
    requires Inv(s)
    ensures CanExceed(s, org, now, limit) <==> HasParty(s, org, now, limit)
  {
    if CanExceed(s, org, now, limit) {
      var events, s' :| Finishes(s, events, s', now) && CountMembers(s'.members, org) > limit;
      var rs := JoinersAreParty(s, events, s', org, now);
    }
    if HasParty(s, org, now, limit) {
      var rs :| IsParty(s, rs, org, now) && CountMembers(s.members, org) + |rs| > limit;
      var events, s' := PartyJoins(s, rs, org, now);
    }
  }

  // -- Runs from the start --

  function Name(k: nat): (name: InviteId)
    ensures |name| == k
  {
    seq(k, _ => 'x')
  }

  /** An organisation with its limit set and all its seats but one taken. */
  lemma {:induction false} AlmostFull(org: Org.OrgId, max: int, c: nat) returns (events: seq<Event>, s: State)
    ensures Leads(Steps(), START, events, s)
    ensures s == START.(members := s.members, limits := map[org := max]) && CountMembers(s.members, org) == c
    ensures forall seat :: seat in s.members ==> seat.org == org && seat.user < c
  {
    if c == 0 {
      s := Apply(START, SetLimit(org, max));
      assert Steps()(START, SetLimit(org, max), s);
      Then(Steps(), START, [], START, SetLimit(org, max), s);
      events := [] + [SetLimit(org, max)];
      assert SeatsOf(s.members, org) == {};
    } else {
      var mid;
      events, mid := AlmostFull(org, max, c - 1);
      var e := Enter(Org.Seat(org, c - 1), Org.Member);
      s := Apply(mid, e);
      assert Steps()(mid, e, s);
      Then(Steps(), START, events, mid, e, s);
      events := events + [e];
      SeatTaken(mid.members, Org.Seat(org, c - 1), Org.Member, org);
    }
  }

  /** `n` Accepts of `n` invites are past the check, for users `c` and up; nothing else is in flight. */
  ghost predicate HasCrowd(s: State, org: Org.OrgId, max: int, c: nat, n: nat) {
    && s.gone == {} && s.limits == map[org := max] && CountMembers(s.members, org) == c
    && (forall seat :: seat in s.members ==> seat.user < c)
    && (forall id :: id in s.invites ==> |id| < n)
    && |s.requests| == n && (forall r :: r in s.requests ==> r < n && InCrowd(s, org, c, r))
  }

  predicate InCrowd(s: State, org: Org.OrgId, c: nat, r: RequestId) {
    && r in s.requests && s.requests[r] == Accept(Name(r), Org.Seat(org, c + r), Org.Member, Admitted)
    && Name(r) in s.invites && s.invites[Name(r)] == Invite(org, Org.Member, 1, Pending)
  }

  /** The crowd with one more invite and its Accept. */
  function OneMore(s: State, org: Org.OrgId, c: nat, n: nat): State {
    s.(invites := s.invites[Name(n) := Invite(org, Org.Member, 1, Pending)],
       requests := s.requests[n := Accept(Name(n), Org.Seat(org, c + n), Org.Member, Admitted)])
  }

  lemma OneMoreSteps(s: State, org: Org.OrgId, max: int, c: nat, n: nat) returns (events: seq<Event>)
    requires s.gone == {} && s.limits == map[org := max] && CountMembers(s.members, org) == c
    requires c < max <= 0x7fff_ffff && Name(n) !in s.invites && n !in s.requests
    ensures Leads(Steps(), s, events, OneMore(s, org, c, n))
  {
    var e := Create(Name(n), org, Org.Member, 1);
    var mid := Apply(s, e);
    assert Steps()(s, e, mid);
    Then(Steps(), s, [], s, e, mid);
    Int32Exact(c);
    var s' := CheckSteps(mid, n, c + n, Name(n), 0);
    var checks := [Find(n, c + n, Name(n), 0), ReadLimit(n), Invites.Count(n)];
    Paths.Joined(Steps(), s, [] + [e], mid, checks, s');
    events := [] + [e] + checks;
  }

  lemma CrowdGrows(s: State, org: Org.OrgId, max: int, c: nat, n: nat)
    requires HasCrowd(s, org, max, c, n)
    ensures Name(n) !in s.invites && n !in s.requests && HasCrowd(OneMore(s, org, c, n), org, max, c, n + 1)
  {
    var s' := OneMore(s, org, c, n);
    forall r | r in s'.requests ensures r < n + 1 && InCrowd(s', org, c, r) {
      assert r != n ==> InCrowd(s, org, c, r);
    }
  }

  lemma {:induction false} Crowd(org: Org.OrgId, max: int, c: nat, n: nat) returns (events: seq<Event>, s: State)
    requires c < max <= 0x7fff_ffff
    ensures Leads(Steps(), START, events, s) && HasCrowd(s, org, max, c, n)
  {
    if n == 0 {
      events, s := AlmostFull(org, max, c);
    } else {
      var before, mid := Crowd(org, max, c, n - 1);
      CrowdGrows(mid, org, max, c, n - 1);
      var more := OneMoreSteps(mid, org, max, c, n - 1);
      s := OneMore(mid, org, c, n - 1);
      Paths.Joined(Steps(), START, before, mid, more, s);
      events := before + more;
    }
  }

  lemma CrowdIsParty(s: State, org: Org.OrgId, max: int, c: nat, n: nat)
    requires HasCrowd(s, org, max, c, n)
    ensures IsParty(s, s.requests.Keys, org, 0) && RequestsOk(s)
  {
    forall r | r in s.requests.Keys ensures CanJoin(s, r, org, 0) {
      assert InCrowd(s, org, c, r);
    }
    forall r, r' | r in s.requests.Keys && r' in s.requests.Keys && r != r' ensures AreApart(s, r, r') {
      assert InCrowd(s, org, c, r) && InCrowd(s, org, c, r');
    }
    forall r | r in s.requests ensures RequestOk(s, r) {
      assert InCrowd(s, org, c, r);
    }
  }

  /**
   The limit is checked without a lock: for every limit and every n, a run from the start in which n Accepts all
   count while one seat is free takes the organisation to its limit plus n - 1.
   */
  lemma RacingAcceptsOvershoot(org: Org.OrgId, max: int, n: nat) returns (events: seq<Event>, s': State)
    requires 1 <= max <= 0x7fff_ffff
    ensures Leads(Steps(), START, events, s')
    ensures org in s'.limits && s'.limits[org] == max && CountMembers(s'.members, org) == max + n - 1
  {
    var before, s := Crowd(org, max, max - 1, n);
    CrowdIsParty(s, org, max, max - 1, n);
    var after;
    after, s' := PartyJoins(s, s.requests.Keys, org, 0);
    Paths.Joined(Steps(), START, before, s, after, s');
    events := before + after;
  }
}
