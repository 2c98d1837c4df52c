/**
 Organisation ownership in the two services. The auth service has one owner per organisation, who can only
 hand ownership on; the API service allows several and refuses to lose the last. Requests run one at a time.
 */
module OrgMembership {
  import opened Wrappers

  type OrgId = nat
  type UserId = nat

  datatype Role = Owner | Admin | Member

  datatype Seat = Seat(org: OrgId, user: UserId)

  /** The membership table, with its unique index on (org, user). */
  type Members = map<Seat, Role>

  datatype Reply = Done | Forbidden | NotFound | LastOwner | AlreadyMember | Failed

  function Owners(m: Members, org: OrgId): set<UserId> {
    set seat | seat in m && seat.org == org && m[seat] == Owner :: seat.user
  }

  predicate IsOwner(m: Members, org: OrgId, user: UserId) {
    Seat(org, user) in m && m[Seat(org, user)] == Owner
  }

  predicate IsManager(m: Members, org: OrgId, user: UserId) {
    Seat(org, user) in m && m[Seat(org, user)] != Member
  }

  /** The seat is taken, given up or given another role. */
  predicate Differs(m: Members, m': Members, seat: Seat) {
    (seat in m) != (seat in m') || (seat in m && seat in m' && m[seat] != m'[seat])
  }

  lemma OwnersAre(m: Members, org: OrgId, user: UserId)
    ensures user in Owners(m, org) <==> IsOwner(m, org, user)
  {
    if IsOwner(m, org, user) {
      assert Seat(org, user) in m;
    }
  }

  /** What writing one seat does to the owners of every organisation. */
  lemma SeatWrite(m: Members, seat: Seat, role: Role, org: OrgId)
    ensures Owners(m[seat := role], org)
            == if seat.org != org then Owners(m, org)
               else if role == Owner then Owners(m, org) + {seat.user} else Owners(m, org) - {seat.user}
  {
    var m' := m[seat := role];
    forall u ensures u in Owners(m', org) <==> IsOwner(m', org, u) {
      OwnersAre(m', org, u);
    }
    forall u ensures u in Owners(m, org) <==> IsOwner(m, org, u) {
      OwnersAre(m, org, u);
    }
  }

  lemma SeatDelete(m: Members, seat: Seat, org: OrgId)
    ensures Owners(m - {seat}, org) == if seat.org != org then Owners(m, org) else Owners(m, org) - {seat.user}
  {
    var m' := m - {seat};
    forall u ensures u in Owners(m', org) <==> IsOwner(m', org, u) {
      OwnersAre(m', org, u);
    }
    forall u ensures u in Owners(m, org) <==> IsOwner(m, org, u) {
      OwnersAre(m, org, u);
    }
  }

  // -- The auth service --

  /** Organisations and their members; deleting an organisation cascades to its members. */
  datatype Directory = Directory(orgs: set<OrgId>, members: Members)

  ghost predicate SeatsInOrgs(d: Directory) {
    forall seat :: seat in d.members ==> seat.org in d.orgs
  }

  /**
   `promotedOnly` is a transfer whose second write, demoting the old owner, fails; `ownerless` is a creation
   whose second insert, the owner's membership, fails.
   */
  datatype AuthOp =
    | Create(org: OrgId, user: UserId, ownerless: bool)
    | Delete(actor: UserId, org: OrgId)
    | SetRole(actor: UserId, org: OrgId, target: UserId, role: Role)
    | Remove(actor: UserId, org: OrgId, target: UserId)
    | Transfer(actor: UserId, org: OrgId, to: UserId, promotedOnly: bool)
    | Join(org: OrgId, user: UserId, role: Role)

  /** What validation and foreign keys let through: no request sets the owner role, and ids of new rows are new. */
  predicate WellFormed(d: Directory, op: AuthOp) {
    match op
    case Create(org, _, _) => org !in d.orgs
    case SetRole(_, _, _, role) => role != Owner
    case Join(org, _, role) => role != Owner && org in d.orgs
    case _ => true
  }

  /** How the checks of an operation come out; writes that fail after them are part of the operation. */
  function AuthReply(m: Members, op: AuthOp): Reply {
    match op
    case Create(_, _, _) => Done
    case Delete(actor, org) => if IsOwner(m, org, actor) then Done else Forbidden
    case SetRole(actor, org, target, _) => ManageReply(m, actor, org, target)
    case Remove(actor, org, target) => ManageReply(m, actor, org, target)
    case Transfer(actor, org, to, _) =>
      if !IsOwner(m, org, actor) then Forbidden else if Seat(org, to) !in m then NotFound else Done
    case Join(org, user, _) => if Seat(org, user) in m then AlreadyMember else Done
  }

  /** Managers may change or remove anyone but the owner. */
  function ManageReply(m: Members, actor: UserId, org: OrgId, target: UserId): Reply {
    if !IsManager(m, org, actor) then Forbidden
    else if Seat(org, target) !in m then NotFound
    else if m[Seat(org, target)] == Owner then Forbidden
    else Done
  }

  function AuthApply(d: Directory, op: AuthOp): Directory {
    var m := d.members;
    if AuthReply(m, op) != Done then d
    else
      match op
      case Create(org, user, ownerless) =>
        Directory(d.orgs + {org}, if ownerless then m else m[Seat(org, user) := Owner])
      case Delete(_, org) => Directory(d.orgs - {org}, map seat | seat in m && seat.org != org :: m[seat])
      case SetRole(_, org, target, role) => d.(members := m[Seat(org, target) := role])
      case Remove(_, org, target) => d.(members := m - {Seat(org, target)})
      case Transfer(actor, org, to, promotedOnly) =>
        var promoted := m[Seat(org, to) := Owner];
        d.(members := if promotedOnly then promoted else promoted[Seat(org, actor) := Admin])
      case Join(org, user, role) => d.(members := m[Seat(org, user) := role])
  }

  /** Every organisation has exactly one owner. */
  ghost predicate OneOwner(d: Directory) {
    SeatsInOrgs(d) && forall org :: org in d.orgs ==> |Owners(d.members, org)| == 1
  }

  lemma SameOwner(m: Members, org: OrgId, a: UserId, b: UserId)
    requires |Owners(m, org)| == 1 && IsOwner(m, org, a) && IsOwner(m, org, b)
    ensures a == b && Owners(m, org) == {a}
  {
    OwnersAre(m, org, a);
    OwnersAre(m, org, b);
    var rest := Owners(m, org) - {a};
    assert |rest| == 0 && (a != b ==> b in rest);
    assert Owners(m, org) == rest + {a};
  }

  /**
   Exactly when an allowed transfer leaves one owner: the new owner is someone else and both writes
   succeed, or it is the actor and the demotion fails.
   */
  lemma TransferKeepsOneOwnerExactlyWhen(d: Directory, actor: UserId, org: OrgId, to: UserId, promotedOnly: bool)
    requires |Owners(d.members, org)| == 1 && AuthReply(d.members, Transfer(actor, org, to, promotedOnly)) == Done
    ensures |Owners(AuthApply(d, Transfer(actor, org, to, promotedOnly)).members, org)| == 1
            <==> (to != actor) == !promotedOnly
  {
    var m := d.members;
    SameOwner(m, org, actor, actor);
    SeatWrite(m, Seat(org, to), Owner, org);
    var promoted := m[Seat(org, to) := Owner];
    SeatWrite(promoted, Seat(org, actor), Admin, org);
    assert {actor} + {to} - {actor} == if to == actor then {} else {to};
    assert to != actor ==> |{actor} + {to}| == 2;
  }

  /** Handing ownership to oneself, which the handler does not refuse, leaves the organisation without an owner. */
  lemma SelfTransferLeavesNone(d: Directory, actor: UserId, org: OrgId)
    requires |Owners(d.members, org)| == 1 && IsOwner(d.members, org, actor)
    ensures AuthReply(d.members, Transfer(actor, org, actor, false)) == Done
    ensures Owners(AuthApply(d, Transfer(actor, org, actor, false)).members, org) == {}
  {
    var m := d.members;
    SameOwner(m, org, actor, actor);
    SeatWrite(m, Seat(org, actor), Owner, org);
    SeatWrite(m[Seat(org, actor) := Owner], Seat(org, actor), Admin, org);
  }

  /**
   The operations that leave one owner: a creation that is completed, and a transfer that names someone else
   and is completed, or names the actor and is not.
   */
  predicate IsProper(op: AuthOp) {
    && (op.Create? ==> !op.ownerless)
    && (op.Transfer? ==> (op.to != op.actor) == !op.promotedOnly)
  }

  lemma ManagedIsNoOwner(m: Members, actor: UserId, org: OrgId, target: UserId)
    requires ManageReply(m, actor, org, target) == Done
    ensures Owners(m, org) - {target} == Owners(m, org)
  {
    OwnersAre(m, org, target);
  }

  lemma DeleteOwners(d: Directory, actor: UserId, org: OrgId, other: OrgId)
    requires AuthReply(d.members, Delete(actor, org)) == Done && other != org
    ensures Owners(AuthApply(d, Delete(actor, org)).members, other) == Owners(d.members, other)
  {
    var m' := AuthApply(d, Delete(actor, org)).members;
    forall u ensures u in Owners(m', other) <==> u in Owners(d.members, other) {
      OwnersAre(m', other, u);
      OwnersAre(d.members, other, u);
    }
  }

  lemma AuthStepOwners(d: Directory, op: AuthOp, org: OrgId)
    requires OneOwner(d) && WellFormed(d, op) && IsProper(op) && AuthReply(d.members, op) == Done
    requires org in AuthApply(d, op).orgs
    ensures |Owners(AuthApply(d, op).members, org)| == 1
  {
    var m := d.members;
    match op
    case Create(o, user, _) =>
      SeatWrite(m, Seat(o, user), Owner, org);
      assert org == o ==> Owners(m, org) == {};
    case Delete(actor, o) =>
      DeleteOwners(d, actor, o, org);
    case SetRole(actor, o, target, role) =>
      SeatWrite(m, Seat(o, target), role, org);
      ManagedIsNoOwner(m, actor, o, target);
    case Remove(actor, o, target) =>
      SeatDelete(m, Seat(o, target), org);
      ManagedIsNoOwner(m, actor, o, target);
    case Transfer(actor, o, to, promotedOnly) =>
      assert Seat(o, actor) in m;
      TransferKeepsOneOwnerExactlyWhen(d, actor, o, to, promotedOnly);
      SeatWrite(m, Seat(o, to), Owner, org);
      SeatWrite(m[Seat(o, to) := Owner], Seat(o, actor), Admin, org);
    case Join(o, user, role) =>
      SeatWrite(m, Seat(o, user), role, org);
      OwnersAre(m, o, user);
      assert Owners(m, o) - {user} == Owners(m, o);
  }

  /** Every serial operation keeps exactly one owner per organisation, if and only if it is refused or proper. */
  lemma AuthStepKeepsOneOwnerExactlyWhen(d: Directory, op: AuthOp)
    requires OneOwner(d) && WellFormed(d, op)
    ensures OneOwner(AuthApply(d, op)) <==> AuthReply(d.members, op) != Done || IsProper(op)
  {
    var d' := AuthApply(d, op);
    if AuthReply(d.members, op) == Done {
      AuthStepKeepsSeats(d, op);
      if IsProper(op) {
        forall org | org in d'.orgs ensures |Owners(d'.members, org)| == 1 {
          AuthStepOwners(d, op, org);
        }
      } else if op.Create? {
        assert Owners(d'.members, op.org) == {};
      } else {
        assert Seat(op.org, op.actor) in d.members;
        TransferKeepsOneOwnerExactlyWhen(d, op.actor, op.org, op.to, op.promotedOnly);
      }
    }
  }

  lemma AuthStepKeepsSeats(d: Directory, op: AuthOp)
    requires SeatsInOrgs(d) && WellFormed(d, op) && AuthReply(d.members, op) == Done
    ensures SeatsInOrgs(AuthApply(d, op))
  {
  }

  function AuthRun(d: Directory, ops: seq<AuthOp>): Directory {
    if ops == [] then d else AuthApply(AuthRun(d, ops[..|ops| - 1]), ops[|ops| - 1])
  }

  /** Every serial run whose allowed operations are proper keeps exactly one owner per organisation. */
  lemma {:induction false} AuthRunKeepsOneOwner(ops: seq<AuthOp>)
    requires forall i :: 0 <= i < |ops| ==> IsFine(AuthRun(Directory({}, map[]), ops[..i]), ops[i])
    ensures OneOwner(AuthRun(Directory({}, map[]), ops))
  {
    if ops != [] {
      var n := |ops| - 1;
      forall i | 0 <= i < n ensures IsFine(AuthRun(Directory({}, map[]), ops[..n][..i]), ops[..n][i]) {
        assert ops[..n][..i] == ops[..i];
      }
      AuthRunKeepsOneOwner(ops[..n]);
      AuthStepKeepsOneOwnerExactlyWhen(AuthRun(Directory({}, map[]), ops[..n]), ops[n]);
    }
  }

  predicate IsFine(d: Directory, op: AuthOp) {
    WellFormed(d, op) && (AuthReply(d.members, op) == Done ==> IsProper(op))
  }

  // -- The API service --

  datatype ApiOp =
    | Invite(caller: UserId, user: UserId, role: Role)
    | Update(caller: UserId, target: UserId, role: Role)
    | Expel(caller: UserId, target: UserId)

  function ApiReply(m: Members, org: OrgId, op: ApiOp): Reply {
    if !IsManager(m, org, op.caller) then Forbidden
    else
      match op
      case Invite(_, user, _) => if Seat(org, user) in m then AlreadyMember else Done
      case Update(caller, target, role) =>
        if Seat(org, target) !in m then NotFound
        else if m[Seat(org, caller)] == Admin && (m[Seat(org, target)] == Owner || role == Owner) then Forbidden
        else if m[Seat(org, target)] == Owner && role != Owner && |Owners(m, org)| <= 1 then LastOwner
        else Done
      case Expel(_, target) =>
        if Seat(org, target) !in m then NotFound
        else if m[Seat(org, target)] == Owner && |Owners(m, org)| <= 1 then LastOwner
        else Done
  }

  /** The write of an operation whose checks have passed. */
  function ApiWrite(m: Members, org: OrgId, op: ApiOp): Members {
    match op
    case Invite(_, user, role) => m[Seat(org, user) := role]
    case Update(_, target, role) => m[Seat(org, target) := role]
    case Expel(_, target) => m - {Seat(org, target)}
  }

  function ApiApply(m: Members, org: OrgId, op: ApiOp): Members {
    if ApiReply(m, org, op) == Done then ApiWrite(m, org, op) else m
  }

  lemma ApiLeavesOthers(m: Members, org: OrgId, op: ApiOp, other: OrgId)
    requires other != org
    ensures Owners(ApiApply(m, org, op), other) == Owners(m, other)
  {
    match op
    case Invite(_, user, role) => SeatWrite(m, Seat(org, user), role, other);
    case Update(_, target, role) => SeatWrite(m, Seat(org, target), role, other);
    case Expel(_, target) => SeatDelete(m, Seat(org, target), other);
  }

  /** No request takes an organisation that has an owner to one that has none. */
  lemma ApiNeverLosesLastOwner(m: Members, org: OrgId, op: ApiOp)
    requires Owners(m, org) != {}
    ensures Owners(ApiApply(m, org, op), org) != {}
  {
    if ApiReply(m, org, op) == Done {
      match op
      case Invite(_, user, role) =>
        SeatWrite(m, Seat(org, user), role, org);
        OwnersAre(m, org, user);
      case Update(_, target, role) =>
        SeatWrite(m, Seat(org, target), role, org);
        OwnersAre(m, org, target);
        if role != Owner {
          OneOut(Owners(m, org), target);
        }
      case Expel(_, target) =>
        SeatDelete(m, Seat(org, target), org);
        OwnersAre(m, org, target);
        OneOut(Owners(m, org), target);
    }
  }

  /**
   An admin's request changes who the owners are exactly when it invites someone as an owner or removes one: role
   changes to or from owner are refused to admins, and these two are not.
   */
  lemma AdminChangesOwnersExactlyWhen(m: Members, org: OrgId, op: ApiOp)
    requires Seat(org, op.caller) in m && m[Seat(org, op.caller)] == Admin
    ensures Owners(ApiApply(m, org, op), org) != Owners(m, org)
            <==> || (op.Invite? && op.role == Owner && Seat(org, op.user) !in m)
                 || (op.Expel? && Seat(org, op.target) in m && m[Seat(org, op.target)] == Owner
                     && |Owners(m, org)| > 1)
  {
    match op
    case Invite(_, user, role) =>
      SeatWrite(m, Seat(org, user), role, org);
      OwnersAre(m, org, user);
    case Update(_, target, role) =>
      SeatWrite(m, Seat(org, target), role, org);
      OwnersAre(m, org, target);
    case Expel(_, target) =>
      SeatDelete(m, Seat(org, target), org);
      OwnersAre(m, org, target);
  }

  lemma ApiKeepsAnOwner(m: Members, org: OrgId, op: ApiOp)
    ensures Owners(m, org) != {} ==> Owners(ApiApply(m, org, op), org) != {}
    ensures forall other | other != org :: Owners(ApiApply(m, org, op), other) == Owners(m, other)
  {
    forall other | other != org ensures Owners(ApiApply(m, org, op), other) == Owners(m, other) {
      ApiLeavesOthers(m, org, op, other);
    }
    if Owners(m, org) != {} {
      ApiNeverLosesLastOwner(m, org, op);
    }
  }

  lemma OneOut(s: set<UserId>, u: UserId)
    requires s != {} && (u in s ==> |s| > 1)
    ensures s - {u} != {}
  {
    if u in s {
      assert |s - {u}| == |s| - 1;
    } else {
      assert s - {u} == s;
    }
  }

  // -- The handlers on the table they update in place --

  class OrgStore {
    var orgs: set<OrgId>
    var members: Members

    ghost function View(): Directory
      reads this
    {
      Directory(orgs, members)
    }

    constructor ()
      ensures OneOwner(View()) && View() == Directory({}, map[])
    {
      orgs, members := {}, map[];
    }

    /** Two inserts; `seated` is false when the second one fails. */
    method CreateOrg(org: OrgId, user: UserId, seated: bool) returns (reply: Reply)
      requires OneOwner(View()) && org !in orgs
      modifies this
      ensures reply == (if seated then Done else Failed)
      ensures View() == AuthApply(old(View()), Create(org, user, !seated))
      ensures orgs == old(orgs) + {org}
      ensures members == if seated then old(members)[Seat(org, user) := Owner] else old(members)
      ensures OneOwner(View()) <==> seated
    {
      AuthStepKeepsOneOwnerExactlyWhen(View(), Create(org, user, !seated));
      orgs := orgs + {org};
      if !seated {
        return Failed;
      }
      members := members[Seat(org, user) := Owner];
      return Done;
    }

    /** Only an owner may; the memberships go with the organisation. */
    method DeleteOrg(actor: UserId, org: OrgId) returns (reply: Reply)
      requires OneOwner(View())
      modifies this
      ensures OneOwner(View()) && View() == AuthApply(old(View()), Delete(actor, org))
      ensures reply == if Seat(org, actor) in old(members) && old(members)[Seat(org, actor)] == Owner then Done else Forbidden
      ensures orgs == if reply == Done then old(orgs) - {org} else old(orgs)
      ensures forall seat :: seat in members <==> seat in old(members) && (reply == Done ==> seat.org != org)
      ensures forall seat :: seat in members ==> members[seat] == old(members)[seat]
    {
      AuthStepKeepsOneOwnerExactlyWhen(View(), Delete(actor, org));
      if Seat(org, actor) !in members || members[Seat(org, actor)] != Owner {
        return Forbidden;
      }
      orgs := orgs - {org};
      members := map seat | seat in members && seat.org != org :: members[seat];
      return Done;
    }

    method UpdateMemberRole(actor: UserId, org: OrgId, target: UserId, role: Role) returns (reply: Reply)
      requires OneOwner(View()) && role != Owner
      modifies this
      ensures OneOwner(View()) && reply == AuthReply(old(members), SetRole(actor, org, target, role))
      ensures View() == AuthApply(old(View()), SetRole(actor, org, target, role))
      ensures Seat(org, actor) !in old(members) || old(members)[Seat(org, actor)] == Member ==> reply == Forbidden
      ensures reply == Done <==>
                && Seat(org, actor) in old(members) && old(members)[Seat(org, actor)] in {Owner, Admin}
                && Seat(org, target) in old(members) && old(members)[Seat(org, target)] in {Admin, Member}
      ensures members == if reply == Done then old(members)[Seat(org, target) := role] else old(members)
    {
      AuthStepKeepsOneOwnerExactlyWhen(View(), SetRole(actor, org, target, role));
      if Seat(org, actor) !in members || members[Seat(org, actor)] == Member {
        return Forbidden;
      }
      if Seat(org, target) !in members {
        return NotFound;
      }
      if members[Seat(org, target)] == Owner {
        return Forbidden;
      }
      members := members[Seat(org, target) := role];
      return Done;
    }

    method RemoveMember(actor: UserId, org: OrgId, target: UserId) returns (reply: Reply)
      requires OneOwner(View())
      modifies this
      ensures OneOwner(View()) && reply == AuthReply(old(members), Remove(actor, org, target))
      ensures View() == AuthApply(old(View()), Remove(actor, org, target))
      ensures Seat(org, actor) !in old(members) || old(members)[Seat(org, actor)] == Member ==> reply == Forbidden
      ensures reply == Done <==>
                && Seat(org, actor) in old(members) && old(members)[Seat(org, actor)] in {Owner, Admin}
                && Seat(org, target) in old(members) && old(members)[Seat(org, target)] in {Admin, Member}
      ensures members == if reply == Done then old(members) - {Seat(org, target)} else old(members)
    {
      AuthStepKeepsOneOwnerExactlyWhen(View(), Remove(actor, org, target));
      if Seat(org, actor) !in members || members[Seat(org, actor)] == Member {
        return Forbidden;
      }
      if Seat(org, target) !in members {
        return NotFound;
      }
      if members[Seat(org, target)] == Owner {
        return Forbidden;
      }
      members := members - {Seat(org, target)};
      return Done;
    }

    /** Two writes, promote and then demote; the actor is not compared with the new owner. */
    method TransferOwnership(actor: UserId, org: OrgId, to: UserId, demoted: bool) returns (reply: Reply)
      requires OneOwner(View())
      modifies this
      ensures var checked := AuthReply(old(members), Transfer(actor, org, to, !demoted));
              reply == if checked == Done && !demoted then Failed else checked
      ensures View() == AuthApply(old(View()), Transfer(actor, org, to, !demoted))
      ensures reply == Forbidden <==> Seat(org, actor) !in old(members) || old(members)[Seat(org, actor)] != Owner
      ensures reply == NotFound <==> reply != Forbidden && Seat(org, to) !in old(members)
      ensures members == if reply == Done then old(members)[Seat(org, to) := Owner][Seat(org, actor) := Admin]
                         else if reply == Failed then old(members)[Seat(org, to) := Owner] else old(members)
      ensures OneOwner(View()) <==> reply in {Forbidden, NotFound} || (to != actor) == demoted
    {
      AuthStepKeepsOneOwnerExactlyWhen(View(), Transfer(actor, org, to, !demoted));
      if Seat(org, actor) !in members || members[Seat(org, actor)] != Owner {
        return Forbidden;
      }
      if Seat(org, to) !in members {
        return NotFound;
      }
      members := members[Seat(org, to) := Owner];
      if !demoted {
        return Failed;
      }
      members := members[Seat(org, actor) := Admin];
      return Done;
    }
  }

  /** The API service's handlers, which count owners before they write. */
  class ApiOrgStore {
    var members: Members

    /** `role` is None where the request leaves it out; a membership that exists already is a conflict. */
    method InviteMember(org: OrgId, caller: UserId, user: UserId, role: Option<Role>) returns (reply: Reply)
      modifies this
      ensures reply == Forbidden <==> Seat(org, caller) !in old(members) || old(members)[Seat(org, caller)] == Member
      ensures reply == AlreadyMember <==> reply != Forbidden && Seat(org, user) in old(members)
      ensures reply in {Forbidden, AlreadyMember, Done}
      ensures members == if reply == Done then old(members)[Seat(org, user) := if role.Some? then role.value else Member]
                         else old(members)
      ensures var op := Invite(caller, user, if role.Some? then role.value else Member);
              reply == ApiReply(old(members), org, op) && members == ApiApply(old(members), org, op)
    {
      if Seat(org, caller) !in members || members[Seat(org, caller)] == Member {
        return Forbidden;
      }
      if Seat(org, user) in members {
        return AlreadyMember;
      }
      members := members[Seat(org, user) := if role.Some? then role.value else Member];
      return Done;
    }

    method UpdateMemberRole(org: OrgId, caller: UserId, target: UserId, role: Role) returns (reply: Reply)
      modifies this
      ensures Seat(org, caller) !in old(members) || old(members)[Seat(org, caller)] == Member ==> reply == Forbidden
      ensures reply == Done <==>
                && Seat(org, caller) in old(members) && Seat(org, target) in old(members)
                && var from := old(members)[Seat(org, target)];
                   && (old(members)[Seat(org, caller)] == Owner
                       || (old(members)[Seat(org, caller)] == Admin && from != Owner && role != Owner))
                   && (from == Owner && role != Owner ==> |Owners(old(members), org)| > 1)
      ensures members == if reply == Done then old(members)[Seat(org, target) := role] else old(members)
      ensures reply == ApiReply(old(members), org, Update(caller, target, role))
      ensures members == ApiApply(old(members), org, Update(caller, target, role))
      ensures Owners(old(members), org) != {} ==> Owners(members, org) != {}
      ensures forall other | other != org :: Owners(members, other) == Owners(old(members), other)
    {
      ApiKeepsAnOwner(members, org, Update(caller, target, role));
      if Seat(org, caller) !in members || members[Seat(org, caller)] == Member {
        return Forbidden;
      }
      if Seat(org, target) !in members {
        return NotFound;
      }
      if members[Seat(org, caller)] == Admin && (members[Seat(org, target)] == Owner || role == Owner) {
        return Forbidden;
      }
      if members[Seat(org, target)] == Owner && role != Owner {
        var owners := |Owners(members, org)|;
        if owners <= 1 {
          return LastOwner;
        }
      }
      members := members[Seat(org, target) := role];
      return Done;
    }

    method RemoveMember(org: OrgId, caller: UserId, target: UserId) returns (reply: Reply)
      modifies this
      ensures Seat(org, caller) !in old(members) || old(members)[Seat(org, caller)] == Member ==> reply == Forbidden
      ensures reply == Done <==>
                && Seat(org, caller) in old(members) && old(members)[Seat(org, caller)] in {Owner, Admin}
                && Seat(org, target) in old(members)
                && (old(members)[Seat(org, target)] == Owner ==> |Owners(old(members), org)| > 1)
      ensures members == if reply == Done then old(members) - {Seat(org, target)} else old(members)
      ensures reply == ApiReply(old(members), org, Expel(caller, target))
      ensures members == ApiApply(old(members), org, Expel(caller, target))
      ensures Owners(old(members), org) != {} ==> Owners(members, org) != {}
      ensures forall other | other != org :: Owners(members, other) == Owners(old(members), other)
    {
      ApiKeepsAnOwner(members, org, Expel(caller, target));
      if Seat(org, caller) !in members || members[Seat(org, caller)] == Member {
        return Forbidden;
      }
      if Seat(org, target) !in members {
        return NotFound;
      }
      if members[Seat(org, target)] == Owner {
        var owners := |Owners(members, org)|;
        if owners <= 1 {
          return LastOwner;
        }
      }
      members := members - {Seat(org, target)};
      return Done;
    }
  }
}
