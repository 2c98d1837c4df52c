/**
 When interleaved Refreshes keep one live refresh token per session: exactly as long as no two of them hold the
 same token.
 */
module SessionRotation {
  import opened Paths
  import opened Sessions

  /** What stands for a session's one live token: the token itself, or a Refresh that is going to store the next. */
  datatype Holder = OfToken(hash: string) | OfRequest(r: RequestId)

  predicate IsEarly(stage: Stage) {
    stage.HasToken? || stage.Checked?
  }

  predicate Holds(s: State, sid: SessionId, h: Holder) {
    match h
    case OfToken(hash) => IsLive(s.t, hash, sid)
    case OfRequest(r) =>
      && r in s.requests && s.requests[r].session == sid
      && (s.requests[r].stage.Rotated? || (IsEarly(s.requests[r].stage) && !IsLive(s.t, s.requests[r].hash, sid)))
  }

  ghost predicate OneHolder(s: State) {
    forall sid, x, y :: Holds(s, sid, x) && Holds(s, sid, y) ==> x == y
  }

  /** Every token belongs to a session, and every request to the session of its token. */
  ghost predicate RefsOk(s: State) {
    && TokensHaveSessions(s.t)
    && forall r :: r in s.requests ==>
         s.requests[r].hash in s.t.tokens && s.t.tokens[s.requests[r].hash].session == s.requests[r].session
  }

  predicate HoldsHash(s: State, r: RequestId, hash: string) {
    r in s.requests && !s.requests[r].stage.StoredNew? && s.requests[r].hash == hash
  }

  /** No two Refreshes that have yet to store a token have read the same one. */
  ghost predicate Separate(s: State) {
    forall r, r', hash :: HoldsHash(s, r, hash) && HoldsHash(s, r', hash) ==> r == r'
  }

  /** Revoking the old token, which may fail unnoticed, succeeds. */
  predicate Revokes(e: Event) {
    e.RevokeOld? ==> e.written
  }

  // -- One step --

  lemma StepKeepsRefs(cfg: Config, s: State, e: Event)
    requires RefsOk(s) && Enabled(s, e)
    ensures RefsOk(Apply(cfg, s, e))
  {
    var s' := Apply(cfg, s, e);
    forall h | h in s'.t.tokens ensures s'.t.tokens[h].session in s'.t.sessions {
      assert h in s.t.tokens ==> s.t.tokens[h].session == s'.t.tokens[h].session;
    }
    StepPersists(cfg, s, e);
  }

  /** What stood for the session before the step, where `x` does after it. */
  function Before(s: State, e: Event, x: Holder): Holder {
    if e.StoreNew? && x == OfToken(e.hash) then OfRequest(e.r)
    else if x.OfRequest? && x.r in s.requests && IsEarly(s.requests[x.r].stage)
            && IsLive(s.t, s.requests[x.r].hash, s.requests[x.r].session) then OfToken(s.requests[x.r].hash)
    else x
  }

  lemma HeldBefore(cfg: Config, s: State, e: Event, sid: SessionId, x: Holder)
    requires RefsOk(s) && Enabled(s, e) && Revokes(e) && Holds(Apply(cfg, s, e), sid, x)
    requires !(e.Login? && e.sid == sid)
    ensures Holds(s, sid, Before(s, e, x))
  {
  }

  lemma BeforeIsOneToOne(cfg: Config, s: State, e: Event, sid: SessionId, x: Holder, y: Holder)
    requires RefsOk(s) && Enabled(s, e) && Revokes(e) && Separate(s)
    requires Holds(Apply(cfg, s, e), sid, x) && Holds(Apply(cfg, s, e), sid, y)
    requires !(e.Login? && e.sid == sid)
    requires Before(s, e, x) == Before(s, e, y)
    ensures x == y
  {
    if x.OfRequest? && y.OfRequest? && x.r in s.requests && y.r in s.requests {
      assert HoldsHash(s, x.r, s.requests[x.r].hash) && HoldsHash(s, y.r, s.requests[y.r].hash);
    }
  }

  lemma StepKeepsOneHolder(cfg: Config, s: State, e: Event)
    requires RefsOk(s) && OneHolder(s) && Separate(s) && Revokes(e) && Enabled(s, e)
    ensures OneHolder(Apply(cfg, s, e))
  {
    var s' := Apply(cfg, s, e);
    forall sid, x, y | Holds(s', sid, x) && Holds(s', sid, y) ensures x == y {
      if e.Login? && e.sid == sid {
        NewSession(cfg, s, e, x);
        NewSession(cfg, s, e, y);
      } else {
        HeldBefore(cfg, s, e, sid, x);
        HeldBefore(cfg, s, e, sid, y);
        BeforeIsOneToOne(cfg, s, e, sid, x, y);
      }
    }
  }

  lemma NewSession(cfg: Config, s: State, e: Event, x: Holder)
    requires RefsOk(s) && Enabled(s, e) && e.Login? && Holds(Apply(cfg, s, e), e.sid, x)
    ensures x == OfToken(e.hash)
  {
  }

  // -- Runs --

  ghost predicate Ready(s: State) {
    RefsOk(s) && OneHolder(s)
  }

  lemma RunStepReady(cfg: Config, run: seq<State>, events: seq<Event>, i: nat)
    requires IsRun(cfg, run, events) && i < |events|
    requires Ready(run[i]) && Separate(run[i]) && Revokes(events[i])
    ensures Ready(run[i + 1])
  {
    StepKeepsRefs(cfg, run[i], events[i]);
    StepKeepsOneHolder(cfg, run[i], events[i]);
  }

  lemma {:induction false} RunKeepsReady(cfg: Config, run: seq<State>, events: seq<Event>, i: nat)
    requires IsRun(cfg, run, events) && i < |run|
    requires forall j :: 0 <= j < i ==> Separate(run[j]) && Revokes(events[j])
    ensures Ready(run[i])
  {
    if i > 0 {
      RunKeepsReady(cfg, run, events, i - 1);
      RunStepReady(cfg, run, events, i - 1);
    }
  }

  /**
   In every state of every run in which no two unfinished Refreshes hold the same token and every revocation of
   an old token is written, each session has at most one live refresh token, whatever revocations run between.
   */
  lemma OneLiveInRuns(cfg: Config, run: seq<State>, events: seq<Event>, i: nat)
    requires IsRun(cfg, run, events) && i < |run|
    requires forall j :: 0 <= j < i ==> Separate(run[j]) && Revokes(events[j])
    ensures OneLive(run[i].t)
  {
    RunKeepsReady(cfg, run, events, i);
    forall sid, h, h' | IsLive(run[i].t, h, sid) && IsLive(run[i].t, h', sid) ensures h == h' {
      assert Holds(run[i], sid, OfToken(h)) && Holds(run[i], sid, OfToken(h'));
    }
  }

  // -- The converse --

  /** Between the states only request `r` has moved, and it has revoked its token. */
  ghost predicate HasRotated(s: State, s': State, r: RequestId)
    requires r in s.requests
  {
    && s'.t.sessions == s.t.sessions && s'.t.tokens.Keys == s.t.tokens.Keys
    && s'.requests.Keys == s.requests.Keys && s'.requests[r].stage.Rotated?
    && s'.requests[r].session == s.requests[r].session
    && forall q :: q in s.requests && q != r ==> s'.requests[q] == s.requests[q]
  }

  lemma RevokeNext(cfg: Config, s: State, r: RequestId, now: int) returns (s': State)
    requires r in s.requests && s.requests[r].stage.Checked?
    ensures Steps(cfg)(s, RevokeOld(r, true, now), s') && HasRotated(s, s', r)
  {
    s' := Apply(cfg, s, RevokeOld(r, true, now));
  }

  lemma CheckNext(cfg: Config, s: State, r: RequestId, now: int) returns (s': State)
    requires r in s.requests && s.requests[r].stage.HasToken? && SessionUsable(s.t, s.requests[r].session, now)
    ensures Steps(cfg)(s, ReadSession(r, now), s')
    ensures s'.t == s.t && s'.requests == s.requests[r := s.requests[r].(stage := Checked(s.step, now))]
  {
    s' := Apply(cfg, s, ReadSession(r, now));
  }

  /** An unfinished Refresh of a usable session can run on until it has revoked its token. */
  lemma UpToRotated(cfg: Config, s: State, r: RequestId, now: int) returns (events: seq<Event>, s': State)
    requires r in s.requests && !s.requests[r].stage.StoredNew? && SessionUsable(s.t, s.requests[r].session, now)
    ensures Leads(Steps(cfg), s, events, s') && HasRotated(s, s', r)
  {
    match s.requests[r].stage
    case Rotated(_, _) =>
      events, s' := [], s;
    case Checked(_, _) =>
      s' := RevokeNext(cfg, s, r, now);
      Then(Steps(cfg), s, [], s, RevokeOld(r, true, now), s');
      events := [] + [RevokeOld(r, true, now)];
    case HasToken =>
      var s1 := CheckNext(cfg, s, r, now);
      s' := RevokeNext(cfg, s1, r, now);
      TwoSteps(Steps(cfg), s, ReadSession(r, now), s1, RevokeOld(r, true, now), s');
      events := [ReadSession(r, now), RevokeOld(r, true, now)];
  }

  lemma BothStore(cfg: Config, s: State, r: RequestId, r': RequestId, h: string, h': string, now: int)
    returns (s': State)
    requires r != r' && r in s.requests && r' in s.requests && s.requests[r].session == s.requests[r'].session
    requires s.requests[r].stage.Rotated? && s.requests[r'].stage.Rotated?
    requires h != h' && h !in s.t.tokens && h' !in s.t.tokens
    ensures Leads(Steps(cfg), s, [StoreNew(r, h, now), StoreNew(r', h', now)], s')
    ensures IsLive(s'.t, h, s.requests[r].session) && IsLive(s'.t, h', s.requests[r].session)
  {
    var s1 := Apply(cfg, s, StoreNew(r, h, now));
    s' := Apply(cfg, s1, StoreNew(r', h', now));
    assert Steps(cfg)(s, StoreNew(r, h, now), s1) && Steps(cfg)(s1, StoreNew(r', h', now), s');
    TwoSteps(Steps(cfg), s, StoreNew(r, h, now), s1, StoreNew(r', h', now), s');
  }

  /**
   The premise is needed whatever has happened before: from any state in which two unfinished Refreshes hold one
   token and its session is still usable, they can both go on to store a token, and the session then has two.
   */
  lemma SharedTokenSplits(
    cfg: Config, s: State, r: RequestId, r': RequestId, hash: string, h: string, h': string, now: int)
    returns (events: seq<Event>, s': State)
    requires RefsOk(s) && r != r' && HoldsHash(s, r, hash) && HoldsHash(s, r', hash)
    requires SessionUsable(s.t, s.requests[r].session, now)
    requires h != h' && h !in s.t.tokens && h' !in s.t.tokens
    ensures Leads(Steps(cfg), s, events, s') && !OneLive(s'.t)
  {
    var before, s1 := UpToRotated(cfg, s, r, now);
    var between, s2 := UpToRotated(cfg, s1, r', now);
    s' := BothStore(cfg, s2, r, r', h, h', now);
    var stores := [StoreNew(r, h, now), StoreNew(r', h', now)];
    Joined(Steps(cfg), s, before, s1, between, s2);
    Joined(Steps(cfg), s, before + between, s2, stores, s');
    events := before + between + stores;
  }
}
