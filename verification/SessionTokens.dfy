/** What a refresh token's own lifetime means for the tokens a session is issued. */
module SessionTokens {
  import opened Wrappers
  import opened Sessions

  /**
   Whatever was ever issued came from a refresh token of the session that, when it was read, was not revoked and had
   not passed its expiry.
   */
  lemma IssuedFromUsableToken(cfg: Config, run: seq<State>, events: seq<Event>, k: nat, x: Issue)
    requires IsRun(cfg, run, events) && k < |run| && x in run[k].issued
    ensures x.tokenRead.step < k
    ensures var tokens := run[x.tokenRead.step].t.tokens;
            && x.hash in tokens && tokens[x.hash].session == x.session
            && tokens[x.hash].revokedAt == None && tokens[x.hash].expiresAt >= x.tokenRead.time
  {
    RunKeepsStateOk(cfg, run, events, k);
    assert IssueOk(cfg, run, k, x);
  }

  /** The step stores a refresh token for the session. */
  predicate StoresFor(s: State, e: Event, sid: SessionId) {
    (e.Login? && e.sid == sid) || (e.StoreNew? && e.r in s.requests && s.requests[e.r].session == sid)
  }

  /** The session's refresh tokens expire no later than `bound`. */
  ghost predicate ExpireBy(t: Tables, sid: SessionId, bound: int) {
    forall h :: h in t.tokens && t.tokens[h].session == sid ==> t.tokens[h].expiresAt <= bound
  }

  lemma StepExpiries(cfg: Config, s: State, e: Event, sid: SessionId, last: int)
    requires Enabled(s, e) && ExpireBy(s.t, sid, last + cfg.refreshTtl)
    requires StoresFor(s, e, sid) ==> e.now <= last
    ensures ExpireBy(Apply(cfg, s, e).t, sid, last + cfg.refreshTtl)
  {
  }

  lemma {:induction false} RunExpiries(
    cfg: Config, run: seq<State>, events: seq<Event>, n: nat, sid: SessionId, last: int)
    requires IsRun(cfg, run, events) && n < |run|
    requires forall j :: 0 <= j < n && StoresFor(run[j], events[j], sid) ==> events[j].now <= last
    ensures ExpireBy(run[n].t, sid, last + cfg.refreshTtl)
  {
    if n > 0 {
      RunExpiries(cfg, run, events, n - 1, sid, last);
      StepExpiries(cfg, run[n - 1], events[n - 1], sid, last);
    }
  }

  /**
   A session that stores no new token for the lifetime of a refresh token is issued nothing after that: every issue
   comes from a token that was read within that lifetime of the last one stored.
   */
  lemma QuietSessionEnds(
    cfg: Config, run: seq<State>, events: seq<Event>, k: nat, sid: SessionId, last: int, x: Issue)
    requires IsRun(cfg, run, events) && k < |run| && x in run[k].issued && x.session == sid
    requires forall j :: 0 <= j < k && StoresFor(run[j], events[j], sid) ==> events[j].now <= last
    ensures x.tokenRead.time <= last + cfg.refreshTtl
  {
    IssuedFromUsableToken(cfg, run, events, k, x);
    RunExpiries(cfg, run, events, x.tokenRead.step, sid, last);
  }
}
