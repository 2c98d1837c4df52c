/**
 Sessions and refresh-token rotation (section 10.4 of RFC 6749). Every query of a Refresh, and every query of
 Logout, LogoutAll and RevokeSession, is a step of its own, and requests interleave freely. Times are
 microseconds; a stored expiry in the past is one that lies strictly before the clock reading.
 */
module Sessions {
  import opened Wrappers
  import opened Paths

  type SessionId = nat
  type UserId = nat
  type RequestId = nat

  const SECOND: int := 1_000_000

  datatype Config = Config(maxAge: int, refreshTtl: int, accessTtl: int)

  datatype Session = Session(user: UserId, expiresAt: int, revokedAt: Option<int>)

  /** A row of refresh_tokens, stored under its token hash, which is unique. */
  datatype Token = Token(user: UserId, session: SessionId, expiresAt: int, revokedAt: Option<int>)

  datatype Tables = Tables(sessions: map<SessionId, Session>, tokens: map<string, Token>)

  // -- Statements --

  function RevokeSessionRow(t: Tables, sid: SessionId, now: int): Tables {
    if sid in t.sessions then t.(sessions := t.sessions[sid := t.sessions[sid].(revokedAt := Some(now))]) else t
  }

  function RevokeAllUserSessions(t: Tables, user: UserId, now: int): Tables {
    t.(sessions := map sid | sid in t.sessions ::
         if t.sessions[sid].user == user && t.sessions[sid].revokedAt.None?
         then t.sessions[sid].(revokedAt := Some(now)) else t.sessions[sid])
  }

  function RevokeToken(t: Tables, hash: string, now: int): Tables {
    if hash in t.tokens then t.(tokens := t.tokens[hash := t.tokens[hash].(revokedAt := Some(now))]) else t
  }

  /** RevokeRefreshTokensBySession. */
  function RevokeTokensBySession(t: Tables, sid: SessionId, now: int): Tables {
    t.(tokens := map h | h in t.tokens ::
         if t.tokens[h].session == sid && t.tokens[h].revokedAt.None?
         then t.tokens[h].(revokedAt := Some(now)) else t.tokens[h])
  }

  /** RevokeAllUserRefreshTokens. */
  function RevokeAllUserTokens(t: Tables, user: UserId, now: int): Tables {
    t.(tokens := map h | h in t.tokens ::
         if t.tokens[h].user == user && t.tokens[h].revokedAt.None?
         then t.tokens[h].(revokedAt := Some(now)) else t.tokens[h])
  }

  function AddToken(t: Tables, cfg: Config, hash: string, user: UserId, sid: SessionId, now: int): Tables {
    t.(tokens := t.tokens[hash := Token(user, sid, now + cfg.refreshTtl, None)])
  }

  function AddSession(t: Tables, cfg: Config, sid: SessionId, user: UserId, now: int): Tables {
    t.(sessions := t.sessions[sid := Session(user, now + cfg.maxAge, None)])
  }

  predicate TokenUsable(t: Tables, hash: string, now: int) {
    hash in t.tokens && t.tokens[hash].revokedAt.None? && t.tokens[hash].expiresAt >= now
  }

  predicate SessionUsable(t: Tables, sid: SessionId, now: int) {
    sid in t.sessions && t.sessions[sid].revokedAt.None? && t.sessions[sid].expiresAt >= now
  }

  /** The expiry claim of an access token: JWT dates are whole seconds. */
  function AccessExpiry(cfg: Config, now: int): int {
    (now + cfg.accessTtl) / SECOND * SECOND
  }

  // -- Interleaved requests --

  /** The step and the time at which a Refresh read its token. */
  datatype TokenRead = TokenRead(step: nat, time: int)

  /** How far a Refresh has got. From `Checked` on, `readAt` is the step at which it read the session. */
  datatype Stage =
    | HasToken
    | Checked(readAt: nat, checkedAt: int)
    | Rotated(readAt: nat, checkedAt: int)
    | StoredNew(readAt: nat, checkedAt: int)

  datatype Refresh = Refresh(hash: string, user: UserId, session: SessionId, tokenRead: TokenRead, stage: Stage)

  /** A token handed out by a Refresh: a new refresh token, or an access token with its expiry. */
  datatype Issue =
    | RefreshToken(session: SessionId, hash: string, tokenRead: TokenRead, readAt: nat)
    | AccessToken(
        session: SessionId, hash: string, tokenRead: TokenRead, readAt: nat, checkedAt: int, issuedAt: int, expiry: int)

  datatype State = State(t: Tables, requests: map<RequestId, Refresh>, step: nat, issued: set<Issue>)

  datatype Event =
    | Login(sid: SessionId, hash: string, user: UserId, now: int)
    | ReadToken(r: RequestId, hash: string, now: int)
    | ReadSession(r: RequestId, now: int)
    | RevokeOld(r: RequestId, written: bool, now: int)
    | StoreNew(r: RequestId, hash: string, now: int)
    | IssueAccess(r: RequestId, now: int)
    | GiveUp(r: RequestId)
    | DoRevokeSession(sid: SessionId, now: int)
    | DoRevokeAllSessions(user: UserId, now: int)
    | DoRevokeToken(hash: string, now: int)
    | DoRevokeTokensBySession(sid: SessionId, now: int)
    | DoRevokeAllTokens(user: UserId, now: int)

  predicate Enabled(s: State, e: Event) {
    match e
    case Login(sid, hash, _, _) => sid !in s.t.sessions && hash !in s.t.tokens
    case ReadToken(r, hash, now) => r !in s.requests && TokenUsable(s.t, hash, now)
    case ReadSession(r, _) => r in s.requests && s.requests[r].stage.HasToken?
    case RevokeOld(r, _, _) => r in s.requests && s.requests[r].stage.Checked?
    case StoreNew(r, hash, _) => r in s.requests && s.requests[r].stage.Rotated? && hash !in s.t.tokens
    case IssueAccess(r, _) => r in s.requests && s.requests[r].stage.StoredNew?
    case GiveUp(r) => r in s.requests
    case _ => true
  }

  function MoveTo(s: State, r: RequestId, stage: Stage): State
    requires r in s.requests
  {
    s.(requests := s.requests[r := s.requests[r].(stage := stage)])
  }

  function Effect(cfg: Config, s: State, e: Event): State
    requires Enabled(s, e)
  {
    match e
    case Login(sid, hash, user, now) =>
      s.(t := AddToken(AddSession(s.t, cfg, sid, user, now), cfg, hash, user, sid, now))
    case ReadToken(r, hash, now) =>
      s.(requests := s.requests[r := Refresh(hash, s.t.tokens[hash].user, s.t.tokens[hash].session,
                                             TokenRead(s.step, now), HasToken)])
    case ReadSession(r, now) =>
      if SessionUsable(s.t, s.requests[r].session, now) then MoveTo(s, r, Checked(s.step, now))
      else s.(requests := s.requests - {r})
    case RevokeOld(r, written, now) =>
      var s' := MoveTo(s, r, Rotated(s.requests[r].stage.readAt, s.requests[r].stage.checkedAt));
      if written then s'.(t := RevokeToken(s.t, s.requests[r].hash, now)) else s'
    case StoreNew(r, hash, now) =>
      var q := s.requests[r];
      MoveTo(s, r, StoredNew(q.stage.readAt, q.stage.checkedAt))
        .(t := AddToken(s.t, cfg, hash, q.user, q.session, now),
          issued := s.issued + {RefreshToken(q.session, q.hash, q.tokenRead, q.stage.readAt)})
    case IssueAccess(r, now) =>
      var q := s.requests[r];
      s.(requests := s.requests - {r},
         issued := s.issued
                   + {AccessToken(q.session, q.hash, q.tokenRead, q.stage.readAt, q.stage.checkedAt, now,
                                  AccessExpiry(cfg, now))})
    case GiveUp(r) => s.(requests := s.requests - {r})
    case DoRevokeSession(sid, now) => s.(t := RevokeSessionRow(s.t, sid, now))
    case DoRevokeAllSessions(user, now) => s.(t := RevokeAllUserSessions(s.t, user, now))
    case DoRevokeToken(hash, now) => s.(t := RevokeToken(s.t, hash, now))
    case DoRevokeTokensBySession(sid, now) => s.(t := RevokeTokensBySession(s.t, sid, now))
    case DoRevokeAllTokens(user, now) => s.(t := RevokeAllUserTokens(s.t, user, now))
  }

  function Apply(cfg: Config, s: State, e: Event): State
    requires Enabled(s, e)
  {
    Effect(cfg, s, e).(step := s.step + 1)
  }

  ghost predicate Init(s: State) {
    s == State(Tables(map[], map[]), map[], 0, {})
  }

  ghost predicate IsRun(cfg: Config, run: seq<State>, events: seq<Event>) {
    && |run| == |events| + 1
    && Init(run[0])
    && forall i :: 0 <= i < |events| ==> Enabled(run[i], events[i]) && run[i + 1] == Apply(cfg, run[i], events[i])
  }

  // -- Revocation is permanent --

  /** Sessions keep their user and expiry, and a revoked one stays revoked. */
  ghost predicate SessionsPersist(t: Tables, t': Tables) {
    forall sid :: sid in t.sessions ==>
      && sid in t'.sessions && t'.sessions[sid].user == t.sessions[sid].user
      && t'.sessions[sid].expiresAt == t.sessions[sid].expiresAt
      && (t.sessions[sid].revokedAt.Some? ==> t'.sessions[sid].revokedAt.Some?)
  }

  lemma StepPersists(cfg: Config, s: State, e: Event)
    requires Enabled(s, e)
    ensures SessionsPersist(s.t, Apply(cfg, s, e).t)
  {
    match e
    case Login(_, _, _, _) =>
    case ReadToken(_, _, _) =>
    case ReadSession(_, _) =>
    case RevokeOld(_, _, _) =>
    case StoreNew(_, _, _) =>
    case IssueAccess(_, _) =>
    case GiveUp(_) =>
    case DoRevokeSession(_, _) =>
    case DoRevokeAllSessions(_, _) =>
    case DoRevokeToken(_, _) =>
    case DoRevokeTokensBySession(_, _) =>
    case DoRevokeAllTokens(_, _) =>
  }

  lemma PersistsOn(t: Tables, t': Tables, t'': Tables)
    requires SessionsPersist(t, t') && SessionsPersist(t', t'')
    ensures SessionsPersist(t, t'')
  {
  }

  lemma {:induction false} RunPersists(cfg: Config, run: seq<State>, events: seq<Event>, i: nat, k: nat)
    requires IsRun(cfg, run, events) && i <= k < |run|
    ensures SessionsPersist(run[i].t, run[k].t)
    decreases k
  {
    if i < k {
      RunPersists(cfg, run, events, i, k - 1);
      var before, after := run[k - 1].t, run[k].t;
      assert SessionsPersist(before, after) by {
        StepPersists(cfg, run[k - 1], events[k - 1]);
      }
      PersistsOn(run[i].t, before, after);
    }
  }

  /** The session was usable in the state in which it was read, at the time of that reading. */
  ghost predicate ReadUsable(run: seq<State>, n: nat, sid: SessionId, readAt: nat, checkedAt: int) {
    readAt < n <= |run| && SessionUsable(run[readAt].t, sid, checkedAt)
  }

  /** The token was the session's, not revoked and not past its expiry when it was read. */
  ghost predicate TokenWasUsable(run: seq<State>, n: nat, hash: string, sid: SessionId, at: TokenRead) {
    && at.step < n <= |run| && hash in run[at.step].t.tokens && run[at.step].t.tokens[hash].session == sid
    && run[at.step].t.tokens[hash].revokedAt == None && run[at.step].t.tokens[hash].expiresAt >= at.time
  }

  ghost predicate RequestOk(run: seq<State>, n: nat, q: Refresh) {
    && TokenWasUsable(run, n, q.hash, q.session, q.tokenRead)
    && (q.stage.HasToken? || ReadUsable(run, n, q.session, q.stage.readAt, q.stage.checkedAt))
  }

  ghost predicate IssueOk(cfg: Config, run: seq<State>, n: nat, x: Issue) {
    && TokenWasUsable(run, n, x.hash, x.session, x.tokenRead)
    && match x
       case RefreshToken(sid, _, _, readAt) => exists at :: ReadUsable(run, n, sid, readAt, at)
       case AccessToken(sid, _, _, readAt, checkedAt, issuedAt, expiry) =>
         ReadUsable(run, n, sid, readAt, checkedAt) && expiry == AccessExpiry(cfg, issuedAt)
  }

  ghost predicate RequestsOk(run: seq<State>, n: nat, requests: map<RequestId, Refresh>) {
    forall r :: r in requests ==> RequestOk(run, n, requests[r])
  }

  ghost predicate IssuedOk(cfg: Config, run: seq<State>, n: nat, issued: set<Issue>) {
    forall x :: x in issued ==> IssueOk(cfg, run, n, x)
  }

  ghost predicate StateOk(cfg: Config, run: seq<State>, i: nat)
    requires i < |run|
  {
    run[i].step == i && RequestsOk(run, i, run[i].requests) && IssuedOk(cfg, run, i, run[i].issued)
  }

  lemma Later(cfg: Config, run: seq<State>, i: nat)
    requires i + 1 < |run| && StateOk(cfg, run, i)
    ensures RequestsOk(run, i + 1, run[i].requests) && IssuedOk(cfg, run, i + 1, run[i].issued)
  {
    forall x | x in run[i].issued ensures IssueOk(cfg, run, i + 1, x) {
      assert IssueOk(cfg, run, i, x);
      if x.RefreshToken? {
        var at :| ReadUsable(run, i, x.session, x.readAt, at);
        assert ReadUsable(run, i + 1, x.session, x.readAt, at);
      }
    }
  }

  lemma StepKeepsRequests(cfg: Config, run: seq<State>, events: seq<Event>, i: nat)
    requires IsRun(cfg, run, events) && i < |events| && StateOk(cfg, run, i)
    ensures RequestsOk(run, i + 1, run[i + 1].requests)
  {
    Later(cfg, run, i);
    var before, after := run[i].requests, run[i + 1].requests;
    forall r | r in after ensures RequestOk(run, i + 1, after[r]) {
      if events[i].ReadToken? && events[i].r == r {
        assert TokenWasUsable(run, i + 1, after[r].hash, after[r].session, after[r].tokenRead);
      } else {
        assert RequestOk(run, i + 1, before[r]);
        assert after[r] == before[r].(stage := after[r].stage);
      }
    }
  }

  lemma StepKeepsIssued(cfg: Config, run: seq<State>, events: seq<Event>, i: nat)
    requires IsRun(cfg, run, events) && i < |events| && StateOk(cfg, run, i)
    ensures IssuedOk(cfg, run, i + 1, run[i + 1].issued)
  {
    Later(cfg, run, i);
    var s, e, after := run[i], events[i], run[i + 1].issued;
    forall x | x in after ensures IssueOk(cfg, run, i + 1, x) {
      if x !in s.issued {
        assert e.StoreNew? || e.IssueAccess?;
        assert RequestOk(run, i + 1, s.requests[e.r]);
        var q := s.requests[e.r];
        assert ReadUsable(run, i + 1, q.session, q.stage.readAt, q.stage.checkedAt);
      }
    }
  }

  lemma {:induction false} RunKeepsStateOk(cfg: Config, run: seq<State>, events: seq<Event>, i: nat)
    requires IsRun(cfg, run, events) && i < |run|
    ensures StateOk(cfg, run, i)
  {
    if i > 0 {
      RunKeepsStateOk(cfg, run, events, i - 1);
      StepKeepsRequests(cfg, run, events, i - 1);
      StepKeepsIssued(cfg, run, events, i - 1);
    }
  }

  /**
   Revocation is permanent. Once a session is revoked, in every later state every token ever issued for it
   came from a Refresh that had read the session before the revocation, whatever refresh tokens racing
   requests have stored since.
   */
  lemma RevokedIssuesNoMore(
    cfg: Config, run: seq<State>, events: seq<Event>, i: nat, k: nat, sid: SessionId, x: Issue)
    requires IsRun(cfg, run, events) && i <= k < |run|
    requires sid in run[i].t.sessions && run[i].t.sessions[sid].revokedAt.Some?
    requires x in run[k].issued && x.session == sid
    ensures x.readAt < i
  {
    RunKeepsStateOk(cfg, run, events, k);
    assert IssueOk(cfg, run, k, x);
    if i <= x.readAt {
      RunPersists(cfg, run, events, i, x.readAt);
      assert false;
    }
  }

  /**
   The absolute lifetime. However often a session is refreshed, each access token expires no later than the
   session's own expiry plus the access lifetime plus the time the request took after reading the session.
   */
  lemma AccessBoundedBySession(cfg: Config, run: seq<State>, events: seq<Event>, k: nat, x: Issue)
    requires IsRun(cfg, run, events) && k < |run| && x in run[k].issued && x.AccessToken?
    ensures x.session in run[k].t.sessions
    ensures x.expiry <= run[k].t.sessions[x.session].expiresAt + cfg.accessTtl + (x.issuedAt - x.checkedAt)
    ensures x.issuedAt + cfg.accessTtl - 1_000_000 < x.expiry <= x.issuedAt + cfg.accessTtl
  {
    RunKeepsStateOk(cfg, run, events, k);
    assert IssueOk(cfg, run, k, x);
    RunPersists(cfg, run, events, x.readAt, k);
  }

  // -- Serial requests --

  predicate IsLive(t: Tables, hash: string, sid: SessionId) {
    hash in t.tokens && t.tokens[hash].session == sid && t.tokens[hash].revokedAt.None?
  }

  /** Every session has at most one refresh token that is not revoked. */
  ghost predicate OneLive(t: Tables) {
    forall sid, h, h' :: IsLive(t, h, sid) && IsLive(t, h', sid) ==> h == h'
  }

  /** No session row that has not been created yet is referred to. */
  ghost predicate TokensHaveSessions(t: Tables) {
    forall h :: h in t.tokens ==> t.tokens[h].session in t.sessions
  }

  /** The clock readings of one Refresh: at each check, at each write and for the access token. */
  datatype Clock = Clock(token: int, session: int, revoke: int, store: int, issue: int)

  datatype RefreshReply = BadToken | BadSession | Refreshed(expiry: int)

  function RefreshReplyOf(t: Tables, cfg: Config, hash: string, at: Clock): RefreshReply {
    if !TokenUsable(t, hash, at.token) then BadToken
    else if !SessionUsable(t, t.tokens[hash].session, at.session) then BadSession
    else Refreshed(AccessExpiry(cfg, at.issue))
  }

  /** `written` says whether revoking the old token succeeded; the handler carries on either way. */
  function RefreshTables(t: Tables, cfg: Config, hash: string, newHash: string, written: bool, at: Clock): Tables {
    if !RefreshReplyOf(t, cfg, hash, at).Refreshed? then t
    else
      AddToken(if written then RevokeToken(t, hash, at.revoke) else t, cfg, newHash,
               t.tokens[hash].user, t.tokens[hash].session, at.store)
  }

  /** Rotation keeps one live token per session exactly when the old token's revocation was written. */
  lemma RotationKeepsOneLiveExactlyWhen(
    t: Tables, cfg: Config, hash: string, newHash: string, written: bool, at: Clock)
    requires OneLive(t) && newHash !in t.tokens && RefreshReplyOf(t, cfg, hash, at).Refreshed?
    ensures OneLive(RefreshTables(t, cfg, hash, newHash, written, at)) <==> written
  {
    var t', sid := RefreshTables(t, cfg, hash, newHash, written, at), t.tokens[hash].session;
    assert IsLive(t, hash, sid) && IsLive(t', newHash, sid);
    if written {
      forall o, h, h' | IsLive(t', h, o) && IsLive(t', h', o) ensures h == h' {
        assert h != newHash ==> IsLive(t, h, o);
        assert h' != newHash ==> IsLive(t, h', o);
      }
    } else {
      assert IsLive(t', hash, sid);
    }
  }

  lemma RevocationsKeepOneLive(t: Tables, t': Tables)
    requires OneLive(t) && forall h :: h in t'.tokens ==>
               h in t.tokens && t'.tokens[h].session == t.tokens[h].session
               && (t'.tokens[h].revokedAt.None? ==> t.tokens[h].revokedAt.None?)
    ensures OneLive(t')
  {
    forall sid, h, h' | IsLive(t', h, sid) && IsLive(t', h', sid) ensures h == h' {
      assert IsLive(t, h, sid) && IsLive(t, h', sid);
    }
  }

  /** The step relation. */
  ghost function Steps(cfg: Config): (State, Event, State) -> bool {
    (s, e, s') => Enabled(s, e) && s' == Apply(cfg, s, e)
  }

  /** The queries of a Refresh that nothing interrupts, by how it ends. */
  function RefreshSteps(
    t: Tables, cfg: Config, r: RequestId, hash: string, newHash: string, written: bool, at: Clock): seq<Event>
  {
    match RefreshReplyOf(t, cfg, hash, at)
    case BadToken => []
    case BadSession => [ReadToken(r, hash, at.token), ReadSession(r, at.session)]
    case Refreshed(_) =>
      [ReadToken(r, hash, at.token), ReadSession(r, at.session)]
      + [RevokeOld(r, written, at.revoke), StoreNew(r, newHash, at.store), IssueAccess(r, at.issue)]
  }

  lemma ReadBoth(cfg: Config, s: State, r: RequestId, hash: string, at: Clock) returns (s': State)
    requires r !in s.requests && TokenUsable(s.t, hash, at.token)
    ensures Leads(Steps(cfg), s, [ReadToken(r, hash, at.token), ReadSession(r, at.session)], s')
    ensures var rt := s.t.tokens[hash];
            && s'.t == s.t && s'.issued == s.issued && s'.step == s.step + 2
            && s'.requests == if SessionUsable(s.t, rt.session, at.session)
                              then s.requests[r := Refresh(hash, rt.user, rt.session, TokenRead(s.step, at.token),
                                                           Checked(s.step + 1, at.session))]
                              else s.requests
  {
    var s1 := Apply(cfg, s, ReadToken(r, hash, at.token));
    s' := Apply(cfg, s1, ReadSession(r, at.session));
    assert Steps(cfg)(s, ReadToken(r, hash, at.token), s1) && Steps(cfg)(s1, ReadSession(r, at.session), s');
    TwoSteps(Steps(cfg), s, ReadToken(r, hash, at.token), s1, ReadSession(r, at.session), s');
    assert s1.requests - {r} == s.requests;
  }

  lemma Rotate(cfg: Config, s: State, r: RequestId, newHash: string, written: bool, at: Clock) returns (s': State)
    requires r in s.requests && s.requests[r].stage.Checked? && newHash !in s.t.tokens
    ensures Leads(Steps(cfg), s,
                  [RevokeOld(r, written, at.revoke), StoreNew(r, newHash, at.store), IssueAccess(r, at.issue)], s')
    ensures var q := s.requests[r];
            && s'.requests == s.requests - {r}
            && s'.t == AddToken(if written then RevokeToken(s.t, q.hash, at.revoke) else s.t, cfg, newHash,
                                q.user, q.session, at.store)
            && AccessToken(q.session, q.hash, q.tokenRead, q.stage.readAt, q.stage.checkedAt, at.issue,
                           AccessExpiry(cfg, at.issue)) in s'.issued
  {
    var s1 := Apply(cfg, s, RevokeOld(r, written, at.revoke));
    var s2 := Apply(cfg, s1, StoreNew(r, newHash, at.store));
    s' := Apply(cfg, s2, IssueAccess(r, at.issue));
    assert Steps(cfg)(s, RevokeOld(r, written, at.revoke), s1) && Steps(cfg)(s1, StoreNew(r, newHash, at.store), s2);
    assert Steps(cfg)(s2, IssueAccess(r, at.issue), s');
    ThreeSteps(Steps(cfg), s, RevokeOld(r, written, at.revoke), s1, StoreNew(r, newHash, at.store), s2,
               IssueAccess(r, at.issue), s');
    assert s'.requests == s.requests - {r};
  }

  /** A Refresh whose queries run back to back is the serial Refresh, however it ends. */
  lemma SerialRefresh(cfg: Config, s: State, r: RequestId, hash: string, newHash: string, written: bool, at: Clock)
    returns (s': State)
    requires r !in s.requests && newHash !in s.t.tokens
    ensures Leads(Steps(cfg), s, RefreshSteps(s.t, cfg, r, hash, newHash, written, at), s')
    ensures s'.t == RefreshTables(s.t, cfg, hash, newHash, written, at) && s'.requests == s.requests
    ensures if RefreshReplyOf(s.t, cfg, hash, at).Refreshed?
            then AccessToken(s.t.tokens[hash].session, hash, TokenRead(s.step, at.token), s.step + 1, at.session, at.issue,
                             AccessExpiry(cfg, at.issue)) in s'.issued
            else s'.issued == s.issued
  {
    s' := s;
    if TokenUsable(s.t, hash, at.token) {
      s' := ReadBoth(cfg, s, r, hash, at);
      if SessionUsable(s.t, s.t.tokens[hash].session, at.session) {
        var mid := s';
        s' := Rotate(cfg, mid, r, newHash, written, at);
        Joined(Steps(cfg), s, [ReadToken(r, hash, at.token), ReadSession(r, at.session)], mid,
               [RevokeOld(r, written, at.revoke), StoreNew(r, newHash, at.store), IssueAccess(r, at.issue)], s');
        assert s'.requests == s.requests;
      }
    }
  }

  lemma Extend(cfg: Config, run: seq<State>, events: seq<Event>, e: Event)
    returns (run': seq<State>, events': seq<Event>)
    requires IsRun(cfg, run, events) && Enabled(run[|run| - 1], e)
    ensures run' == run + [Apply(cfg, run[|run| - 1], e)] && events' == events + [e] && IsRun(cfg, run', events')
  {
    run', events' := run + [Apply(cfg, run[|run| - 1], e)], events + [e];
  }

  /** Two interleaved Refreshes of one token leave two live tokens: the serial result needs serial requests. */
  lemma RacingRefreshesLeaveTwo(cfg: Config, sid: SessionId, user: UserId)
    returns (run: seq<State>, events: seq<Event>)
    requires cfg.maxAge >= 0 && cfg.refreshTtl >= 0
    ensures IsRun(cfg, run, events)
    ensures var t := run[|run| - 1].t; IsLive(t, "b", sid) && IsLive(t, "c", sid)
  {
    var start := State(Tables(map[], map[]), map[], 0, {});
    run, events := Extend(cfg, [start], [], Login(sid, "a", user, 0));
    run, events := Extend(cfg, run, events, ReadToken(1, "a", 0));
    run, events := Extend(cfg, run, events, ReadToken(2, "a", 0));
    run, events := Extend(cfg, run, events, ReadSession(1, 0));
    run, events := Extend(cfg, run, events, ReadSession(2, 0));
    run, events := Extend(cfg, run, events, RevokeOld(1, true, 0));
    run, events := Extend(cfg, run, events, RevokeOld(2, true, 0));
    run, events := Extend(cfg, run, events, StoreNew(1, "b", 0));
    run, events := Extend(cfg, run, events, StoreNew(2, "c", 0));
  }

  /** The handlers, one request at a time, on the tables they update in place. */
  class SessionStore {
    const cfg: Config
    var sessions: map<SessionId, Session>
    var tokens: map<string, Token>

    ghost function View(): Tables
      reads this
    {
      Tables(sessions, tokens)
    }

    ghost predicate Valid()
      reads this
    {
      OneLive(View()) && TokensHaveSessions(View())
    }

    constructor (cfg: Config)
      ensures Valid() && View() == Tables(map[], map[])
    {
      this.cfg, sessions, tokens := cfg, map[], map[];
    }

    /** Session creation at sign-in: an absolute expiry and a first refresh token. */
    method Login(sid: SessionId, hash: string, user: UserId, now: int)
      requires Valid() && sid !in sessions && hash !in tokens
      modifies this
      ensures Valid()
      ensures View() == AddToken(AddSession(old(View()), cfg, sid, user, now), cfg, hash, user, sid, now)
      ensures sessions == old(sessions)[sid := Session(user, now + cfg.maxAge, None)]
      ensures tokens == old(tokens)[hash := Token(user, sid, now + cfg.refreshTtl, None)]
    {
      ghost var before := View();
      sessions := sessions[sid := Session(user, now + cfg.maxAge, None)];
      tokens := tokens[hash := Token(user, sid, now + cfg.refreshTtl, None)];
      forall o, h, h' | IsLive(View(), h, o) && IsLive(View(), h', o) ensures h == h' {
        assert h != hash ==> IsLive(before, h, o);
        assert h' != hash ==> IsLive(before, h', o);
      }
    }

    /** `written` is false when revoking the old token fails, which the handler only logs. */
    method Refresh(hash: string, newHash: string, written: bool, at: Clock) returns (reply: RefreshReply)
      requires Valid() && newHash !in tokens
      modifies this
      ensures Valid() <==> written || !reply.Refreshed?
      ensures TokensHaveSessions(View()) && reply == RefreshReplyOf(old(View()), cfg, hash, at)
      ensures View() == RefreshTables(old(View()), cfg, hash, newHash, written, at)
      ensures reply.BadToken? <==>
                hash !in old(tokens) || old(tokens)[hash].revokedAt.Some? || old(tokens)[hash].expiresAt < at.token
      ensures reply.BadSession? <==>
                && !reply.BadToken? && hash in old(tokens)
                && var sid := old(tokens)[hash].session;
                   sid !in old(sessions) || old(sessions)[sid].revokedAt.Some? || old(sessions)[sid].expiresAt < at.session
      ensures sessions == old(sessions) && (!reply.Refreshed? ==> tokens == old(tokens))
      ensures reply.Refreshed? ==>
                && hash in old(tokens) && old(tokens)[hash].session in old(sessions)
                && var rt := old(tokens)[hash];
                   && tokens == (if written then old(tokens)[hash := rt.(revokedAt := Some(at.revoke))] else old(tokens))
                                [newHash := Token(rt.user, rt.session, at.store + cfg.refreshTtl, None)]
                   && reply.expiry <= old(sessions)[rt.session].expiresAt + cfg.accessTtl + (at.issue - at.session)
                   && at.issue + cfg.accessTtl - 1_000_000 < reply.expiry <= at.issue + cfg.accessTtl
    {
      if hash !in tokens {
        return BadToken;
      }
      var rt := tokens[hash];
      if rt.revokedAt.Some? || rt.expiresAt < at.token {
        return BadToken;
      }
      if rt.session !in sessions || sessions[rt.session].revokedAt.Some? || sessions[rt.session].expiresAt < at.session {
        return BadSession;
      }
      RotationKeepsOneLiveExactlyWhen(View(), cfg, hash, newHash, written, at);
      if written {
        tokens := tokens[hash := rt.(revokedAt := Some(at.revoke))];
      }
      tokens := tokens[newHash := Token(rt.user, rt.session, at.store + cfg.refreshTtl, None)];
      return Refreshed(AccessExpiry(cfg, at.issue));
    }

    /** After Logout with a known refresh token, its session is revoked. */
    method Logout(hash: string, now: int)
      requires Valid()
      modifies this
      ensures Valid()
      ensures View() == if hash in old(tokens)
                        then RevokeSessionRow(RevokeToken(old(View()), hash, now), old(tokens)[hash].session, now)
                        else old(View())
      ensures hash in old(tokens) ==>
                && tokens == old(tokens)[hash := old(tokens)[hash].(revokedAt := Some(now))]
                && old(tokens)[hash].session in sessions
                && sessions == old(sessions)[old(tokens)[hash].session :=
                                               old(sessions)[old(tokens)[hash].session].(revokedAt := Some(now))]
    {
      ghost var before := View();
      if hash in tokens {
        var rt := tokens[hash];
        tokens := tokens[hash := rt.(revokedAt := Some(now))];
        sessions := sessions[rt.session := sessions[rt.session].(revokedAt := Some(now))];
        RevocationsKeepOneLive(before, View());
      }
    }

    /** After LogoutAll every session of the user is revoked and none of the user's refresh tokens is live. */
    method LogoutAll(user: UserId, now: int)
      requires Valid()
      modifies this
      ensures Valid() && View() == RevokeAllUserTokens(RevokeAllUserSessions(old(View()), user, now), user, now)
      ensures sessions.Keys == old(sessions).Keys && tokens.Keys == old(tokens).Keys
      ensures forall sid :: sid in sessions ==>
                sessions[sid] == if old(sessions)[sid].user == user && old(sessions)[sid].revokedAt.None?
                                 then old(sessions)[sid].(revokedAt := Some(now)) else old(sessions)[sid]
      ensures forall h :: h in tokens ==>
                tokens[h] == if old(tokens)[h].user == user && old(tokens)[h].revokedAt.None?
                             then old(tokens)[h].(revokedAt := Some(now)) else old(tokens)[h]
      ensures forall sid :: sid in sessions && sessions[sid].user == user ==> sessions[sid].revokedAt.Some?
      ensures forall h :: h in tokens && tokens[h].user == user ==> tokens[h].revokedAt.Some?
    {
      ghost var before := View();
      sessions := RevokeAllUserSessions(Tables(sessions, tokens), user, now).sessions;
      tokens := RevokeAllUserTokens(Tables(sessions, tokens), user, now).tokens;
      RevocationsKeepOneLive(before, View());
    }

    /** RevokeSession: refused for an unknown session or another user's; otherwise it and its tokens are dead. */
    method RevokeSession(caller: UserId, sid: SessionId, now: int) returns (ok: bool)
      requires Valid()
      modifies this
      ensures Valid() && ok == (sid in old(sessions) && old(sessions)[sid].user == caller)
      ensures !ok ==> View() == old(View())
      ensures ok ==> View() == RevokeTokensBySession(RevokeSessionRow(old(View()), sid, now), sid, now)
      ensures ok ==> sid in old(sessions) && sessions == old(sessions)[sid := old(sessions)[sid].(revokedAt := Some(now))]
      ensures ok ==> tokens.Keys == old(tokens).Keys && forall h :: h in tokens ==>
                tokens[h] == if old(tokens)[h].session == sid && old(tokens)[h].revokedAt.None?
                             then old(tokens)[h].(revokedAt := Some(now)) else old(tokens)[h]
      ensures ok ==> forall h :: !IsLive(View(), h, sid)
    {
      ghost var before := View();
      if sid !in sessions || sessions[sid].user != caller {
        return false;
      }
      sessions := sessions[sid := sessions[sid].(revokedAt := Some(now))];
      tokens := RevokeTokensBySession(Tables(sessions, tokens), sid, now).tokens;
      RevocationsKeepOneLive(before, View());
      return true;
    }
  }
}
