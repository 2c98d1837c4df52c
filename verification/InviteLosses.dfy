/**
 Invites that are used up for nothing. An Accept marks its invite before it inserts the membership, and the two are
 not one transaction, so an insert that fails leaves the invite accepted with nobody seated.
 */
module InviteLosses {
  import opened Paths
  import opened Invites

  /**
   A serial Accept uses its invite up for nothing exactly when it passes the limit check and the user is seated
   already.
   */
  lemma UsedUpExactlyWhen(t: Tables, user: Org.UserId, id: InviteId, now: int)
    requires IsOpen(t.invites, id, now)
    ensures var t', org := AcceptApply(t, user, id, now), t.invites[id].org;
            (id in t'.invites && t'.invites[id].status.Accepted? && t'.members == t.members)
            <==> && org in t.limits && Int32(CountMembers(t.members, org)) < t.limits[org]
                 && Org.Seat(org, user) in t.members
  {
    var t', seat := AcceptApply(t, user, id, now), Org.Seat(t.invites[id].org, user);
    assert seat !in t.members && seat in t'.members ==> t'.members != t.members;
  }

  /** The request that marked the invite gives up, or finds its seat taken or its organisation gone. */
  predicate Loses(s: State, e: Event, id: InviteId) {
    && (e.Join? || e.GiveUp?) && IsMarkedBy(s, e.r, id)
    && (e.GiveUp? || s.requests[e.r].seat in s.members || s.requests[e.r].seat.org in s.gone)
  }

  /** The one way an accepted invite is lost in a step. */
  lemma LostExactlyWhen(s: State, e: Event, id: InviteId)
    requires Inv(s) && Enabled(s, e)
    ensures s.lost <= Apply(s, e).lost
    ensures id in Apply(s, e).lost && id !in s.lost <==> Loses(s, e, id)
  {
    if Loses(s, e, id) {
      assert Accounted(s, id) && HasMark(s, id);
    }
  }

  ghost predicate LosesIn(run: seq<State>, events: seq<Event>, id: InviteId, n: nat)
    requires n <= |events| < |run|
  {
    exists j :: 0 <= j < n && Loses(run[j], events[j], id)
  }

  lemma {:induction false} LostInRun(run: seq<State>, events: seq<Event>, id: InviteId, n: nat)
    requires IsRun(run, events) && n < |run|
    ensures id in run[n].lost <==> LosesIn(run, events, id, n)
  {
    if n > 0 {
      LostInRun(run, events, id, n - 1);
      RunKeepsInv(run, events, n - 1);
      assert Next(run[n - 1], events[n - 1], run[n - 1 + 1]);
      LostExactlyWhen(run[n - 1], events[n - 1], id);
    }
  }

  /**
   An accepted invite that no request is still joining has yielded no membership exactly when such a step lies in
   the run.
   */
  lemma NothingForItExactlyWhen(run: seq<State>, events: seq<Event>, id: InviteId, n: nat)
    requires IsRun(run, events) && n < |run| && IsAccepted(run[n].invites, id) && !HasMark(run[n], id)
    ensures id !in run[n].granted <==> LosesIn(run, events, id, n)
  {
    RunKeepsInv(run, events, n);
    assert Accounted(run[n], id);
    LostInRun(run, events, id, n);
  }

  /** An invite that is lost at some step of a run yields no membership anywhere in it, before or after. */
  lemma LostForever(run: seq<State>, events: seq<Event>, id: InviteId, j: nat, k: nat)
    requires IsRun(run, events) && j < |events| && Loses(run[j], events[j], id) && k < |run|
    ensures id !in run[k].granted
  {
    if k <= j {
      RunKeepsInv(run, events, j);
      assert Accounted(run[j], id) && HasMark(run[j], id);
      GrantedGrows(run, events, k, j);
    } else {
      RunKeepsInv(run, events, k);
      assert Accounted(run[k], id);
      LostInRun(run, events, id, k);
    }
  }

  lemma MemberIsInvited(org: Org.OrgId, user: Org.UserId) returns (events: seq<Event>, s: State)
    ensures Leads(Steps(), START, events, s)
    ensures s == START.(members := map[Org.Seat(org, user) := Org.Member], limits := map[org := 2],
                        invites := map["i" := Invite(org, Org.Member, 1, Pending)])
  {
    var e1, e2, e3 := Enter(Org.Seat(org, user), Org.Member), SetLimit(org, 2), Create("i", org, Org.Member, 1);
    var s1 := Apply(START, e1);
    var s2 := Apply(s1, e2);
    s := Apply(s2, e3);
    assert Steps()(START, e1, s1) && Steps()(s1, e2, s2) && Steps()(s2, e3, s);
    ThreeSteps(Steps(), START, e1, s1, e2, s2, e3, s);
    events := [e1, e2, e3];
  }

  /** A run in which a member accepts an invite to their own organisation. */
  lemma MemberUsesInviteUp(org: Org.OrgId, user: Org.UserId) returns (events: seq<Event>, s': State)
    ensures Leads(Steps(), START, events, s')
    ensures "i" in s'.lost && s'.granted == [] && s'.members == map[Org.Seat(org, user) := Org.Member]
  {
    var before, s := MemberIsInvited(org, user);
    assert SeatsOf(s.members, org) == {Org.Seat(org, user)};
    assert AcceptReply(TablesOf(s), user, "i", 0) == Failed;
    s' := UninterruptedAccept(s, 0, user, "i", 0);
    var accept := AcceptSteps(TablesOf(s), 0, user, "i", 0);
    Paths.Joined(Steps(), START, before, s, accept, s');
    events := before + accept;
    StretchKeepsInv(START, events, s');
    LostIfNothingElse(s', "i");
  }

  lemma LostIfNothingElse(s: State, id: InviteId)
    requires Inv(s) && s.granted == [] && s.requests == map[]
    requires id in RowsOf(s) && RowsOf(s)[id].status.Accepted?
    ensures id in s.lost
  {
    assert Accounted(s, id);
  }
}
