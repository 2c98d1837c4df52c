/**
 The sliding-window rate limiter over a Redis sorted set.

 A request is its arrival time in microseconds, which is both the score and the member it is stored
 under, so two requests in the same microsecond are one member. Each pipeline is atomic, and the limiter
 and Redis read one clock.
 */
module RateLimit {
  import opened Wrappers
  import opened Sets

  const SECOND: int := 1_000_000

  datatype Config = Config(maxRequests: int, window: nat)

  /** The stored key; `expireAt` is None until the first EXPIRE. */
  datatype SortedSet = SortedSet(members: set<int>, expireAt: Option<int>)

  const NO_KEY := SortedSet({}, None)

  /** EXPIRE takes whole seconds: window plus one second, rounded down. */
  function Ttl(cfg: Config): int {
    (cfg.window + SECOND) / SECOND * SECOND
  }

  function Live(z: SortedSet, now: int): set<int> {
    if z.expireAt.Some? && z.expireAt.value <= now then {} else z.members
  }

  /** What ZREMRANGEBYSCORE leaves: everything after the start of the window that ends now. */
  function Pruned(cfg: Config, z: SortedSet, now: int): set<int> {
    set m | m in Live(z, now) && now - cfg.window < m
  }

  function Checked(cfg: Config, z: SortedSet, now: int): SortedSet {
    SortedSet(Pruned(cfg, z, now) + {now}, Some(now + Ttl(cfg)))
  }

  /** The key after a history of requests, allowed or not. */
  ghost function After(cfg: Config, stamps: seq<int>): SortedSet {
    if stamps == [] then NO_KEY
    else Checked(cfg, After(cfg, stamps[..|stamps| - 1]), stamps[|stamps| - 1])
  }

  ghost predicate Ordered(stamps: seq<int>) {
    forall i, j :: 0 <= i < j < |stamps| ==> stamps[i] <= stamps[j]
  }

  ghost predicate Increasing(stamps: seq<int>) {
    forall i, j :: 0 <= i < j < |stamps| ==> stamps[i] < stamps[j]
  }

  /** The requests of a history that lie in the window ending at `now`, by position. */
  ghost function Recent(cfg: Config, stamps: seq<int>, now: int): set<nat> {
    set k: nat | k < |stamps| && now - cfg.window < stamps[k]
  }

  ghost function StampsAt(stamps: seq<int>, ks: set<nat>): set<int>
    requires forall k :: k in ks ==> k < |stamps|
  {
    set k | k in ks :: stamps[k]
  }

  /** The pruned, expiring set holds exactly the stamps that the whole history has in the window. */
  lemma {:induction false} SetAgreesWithHistory(cfg: Config, stamps: seq<int>, now: int)
    requires Ordered(stamps) && (stamps != [] ==> stamps[|stamps| - 1] <= now)
    ensures Pruned(cfg, After(cfg, stamps), now) == StampsAt(stamps, Recent(cfg, stamps, now))
  {
    if stamps != [] {
      var n := |stamps| - 1;
      var before, last := stamps[..n], stamps[n];
      SetAgreesWithHistory(cfg, before, last);
      var kept := Pruned(cfg, After(cfg, before), last);
      assert After(cfg, stamps).members == kept + {last};
      forall m ensures m in Pruned(cfg, After(cfg, stamps), now) <==> m in StampsAt(stamps, Recent(cfg, stamps, now)) {
        if m in Pruned(cfg, After(cfg, stamps), now) {
          if m != last {
            var k :| k in Recent(cfg, before, last) && before[k] == m;
            assert k in Recent(cfg, stamps, now) && stamps[k] == m;
          } else {
            assert n in Recent(cfg, stamps, now);
          }
        }
        if m in StampsAt(stamps, Recent(cfg, stamps, now)) {
          var k :| k in Recent(cfg, stamps, now) && stamps[k] == m;
          assert stamps[k] <= last;
          if k < n {
            assert before[k] == m && k in Recent(cfg, before, last);
          }
          assert m in kept + {last};
        }
      }
    }
  }

  lemma {:induction false} DistinctExactlyWhenSameSize(stamps: seq<int>, ks: set<nat>)
    requires forall k :: k in ks ==> k < |stamps|
    ensures |StampsAt(stamps, ks)| <= |ks|
    ensures |StampsAt(stamps, ks)| == |ks| <==> forall j, k :: j in ks && k in ks && j != k ==> stamps[j] != stamps[k]
    decreases ks
  {
    if ks == {} {
      assert StampsAt(stamps, ks) == {};
    } else {
      var k :| k in ks;
      var rest := ks - {k};
      DistinctExactlyWhenSameSize(stamps, rest);
      assert StampsAt(stamps, ks) == StampsAt(stamps, rest) + {stamps[k]};
      if stamps[k] in StampsAt(stamps, rest) {
        var j :| j in rest && stamps[j] == stamps[k];
        assert StampsAt(stamps, ks) == StampsAt(stamps, rest);
        assert |StampsAt(stamps, ks)| < |ks| && j in ks && j != k;
      }
    }
  }

  /** The count ZCARD reports for the next request. */
  ghost function Count(cfg: Config, stamps: seq<int>, now: int): nat {
    |Pruned(cfg, After(cfg, stamps), now)|
  }

  /** ZCARD is the number of requests in the window exactly when no two of them share a microsecond. */
  lemma CountIsExactWhen(cfg: Config, stamps: seq<int>, now: int)
    requires Ordered(stamps) && (stamps != [] ==> stamps[|stamps| - 1] <= now)
    ensures var recent := Recent(cfg, stamps, now);
            Count(cfg, stamps, now) == |recent|
            <==> forall j, k :: j in recent && k in recent && j != k ==> stamps[j] != stamps[k]
    ensures Count(cfg, stamps, now) <= |Recent(cfg, stamps, now)|
  {
    SetAgreesWithHistory(cfg, stamps, now);
    DistinctExactlyWhenSameSize(stamps, Recent(cfg, stamps, now));
  }

  /** Whether the limiter lets request `k` of a history through. */
  ghost predicate IsAllowed(cfg: Config, stamps: seq<int>, k: nat)
    requires k < |stamps|
  {
    Count(cfg, stamps[..k], stamps[k]) < cfg.maxRequests
  }

  ghost function AllowedIn(cfg: Config, stamps: seq<int>, start: int): set<nat> {
    set k: nat | k < |stamps| && start < stamps[k] <= start + cfg.window && IsAllowed(cfg, stamps, k)
  }

  /** The stamps of the allowed requests before the last one were all counted when it was judged. */
  lemma EarlierCounted(cfg: Config, stamps: seq<int>, start: int, last: nat)
    requires Ordered(stamps) && last in AllowedIn(cfg, stamps, start)
    requires forall k :: k in AllowedIn(cfg, stamps, start) ==> k <= last
    ensures StampsAt(stamps, AllowedIn(cfg, stamps, start)) - {stamps[last]}
            <= Pruned(cfg, After(cfg, stamps[..last]), stamps[last])
  {
    var allowed, before, now := AllowedIn(cfg, stamps, start), stamps[..last], stamps[last];
    var recent := Recent(cfg, before, now);
    SetAgreesWithHistory(cfg, before, now);
    forall m | m in StampsAt(stamps, allowed) && m != now ensures m in StampsAt(before, recent) {
      var k :| k in allowed && stamps[k] == m;
      assert k in recent && before[k] == m;
    }
  }

  function Bound(cfg: Config): nat {
    if cfg.maxRequests < 0 then 0 else cfg.maxRequests
  }

  /** No window of the configured length has allowed requests in more distinct microseconds than the limit. */
  lemma WindowBound(cfg: Config, stamps: seq<int>, start: int)
    requires Ordered(stamps)
    ensures |StampsAt(stamps, AllowedIn(cfg, stamps, start))| <= Bound(cfg)
  {
    var allowed := AllowedIn(cfg, stamps, start);
    var all := StampsAt(stamps, allowed);
    if allowed == {} {
      assert all == {};
    } else {
      var last := LeastExists(allowed, (k: nat) => 0 - k);
      EarlierCounted(cfg, stamps, start, last);
      SubsetSize(all - {stamps[last]}, Pruned(cfg, After(cfg, stamps[..last]), stamps[last]));
      assert IsAllowed(cfg, stamps, last);
      assert |all| <= |all - {stamps[last]}| + 1;
    }
  }

  /** So, if no two allowed requests share a microsecond, no window has more allowed requests than the limit. */
  lemma RequestsBound(cfg: Config, stamps: seq<int>, start: int)
    requires Ordered(stamps)
    requires var allowed := AllowedIn(cfg, stamps, start);
             forall j, k :: j in allowed && k in allowed && j != k ==> stamps[j] != stamps[k]
    ensures |AllowedIn(cfg, stamps, start)| <= Bound(cfg)
  {
    WindowBound(cfg, stamps, start);
    DistinctExactlyWhenSameSize(stamps, AllowedIn(cfg, stamps, start));
  }

  /** Three requests in one microsecond all pass a limit of two: equal stamps are counted once. */
  lemma EqualStampsSlipThrough(t: int)
    ensures var cfg, stamps := Config(2, SECOND), [t, t, t];
            Ordered(stamps) && |AllowedIn(cfg, stamps, t - 1)| == 3
  {
    var cfg, stamps := Config(2, SECOND), [t, t, t];
    forall k | 0 <= k < 3 ensures IsAllowed(cfg, stamps, k) {
      SetAgreesWithHistory(cfg, stamps[..k], t);
      var recent := Recent(cfg, stamps[..k], t);
      if recent == {} {
        assert StampsAt(stamps[..k], recent) == {};
      } else {
        var j :| j in recent;
        assert StampsAt(stamps[..k], recent) == {t};
      }
    }
    assert AllowedIn(cfg, stamps, t - 1) == {0, 1, 2};
  }

  /** The bound is for half-open windows: two requests exactly one window apart both pass a limit of one. */
  lemma ClosedWindowHoldsOneMore(t: int)
    ensures var cfg, stamps := Config(1, SECOND), [t, t + SECOND];
            Increasing(stamps) && IsAllowed(cfg, stamps, 0) && IsAllowed(cfg, stamps, 1)
  {
    var cfg, stamps := Config(1, SECOND), [t, t + SECOND];
    SetAgreesWithHistory(cfg, stamps[..0], t);
    SetAgreesWithHistory(cfg, stamps[..1], t + SECOND);
    assert Recent(cfg, stamps[..0], t) == {} && StampsAt(stamps[..0], {}) == {};
    assert Recent(cfg, stamps[..1], t + SECOND) == {} && StampsAt(stamps[..1], {}) == {};
  }

  /** The microseconds in which the history has requests in the window that ends at `now`. */
  ghost function InWindow(cfg: Config, history: seq<int>, now: int): set<int> {
    set k: nat | k < |history| && now - cfg.window < history[k] :: history[k]
  }

  /** The count is the number of distinct microseconds of the history in the window. */
  lemma CountIsOfStamps(cfg: Config, history: seq<int>, now: int)
    requires Ordered(history) && (history != [] ==> history[|history| - 1] <= now)
    ensures Count(cfg, history, now) == |InWindow(cfg, history, now)|
  {
    SetAgreesWithHistory(cfg, history, now);
    var recent := Recent(cfg, history, now);
    var stamps := InWindow(cfg, history, now);
    forall m ensures m in stamps <==> m in StampsAt(history, recent) {
      if m in stamps {
        var k: nat :| k < |history| && now - cfg.window < history[k] && history[k] == m;
        assert k in recent;
      }
    }
    assert stamps == StampsAt(history, recent);
  }

  /** What one more request does to the key and how it is judged, in terms of the history alone. */
  lemma OneMoreRequest(cfg: Config, history: seq<int>, now: int)
    requires Ordered(history) && (history != [] ==> history[|history| - 1] <= now)
    ensures Ordered(history + [now])
    ensures After(cfg, history + [now]) == Checked(cfg, After(cfg, history), now)
    ensures IsAllowed(cfg, history + [now], |history|) == (Count(cfg, history, now) < cfg.maxRequests)
    ensures Increasing(history + [now]) ==> Count(cfg, history, now) == |Recent(cfg, history, now)|
  {
    var longer := history + [now];
    assert longer[..|history|] == history && longer[|history|] == now;
    CountIsExactWhen(cfg, history, now);
    assert forall k :: 0 <= k < |history| ==> longer[k] == history[k];
  }

  /** The same in terms of the pruned set. */
  lemma Judge(cfg: Config, history: seq<int>, now: int)
    requires Ordered(history) && (history != [] ==> history[|history| - 1] <= now)
    ensures var longer, pruned := history + [now], Pruned(cfg, After(cfg, history), now);
            && Ordered(longer) && After(cfg, longer) == SortedSet(pruned + {now}, Some(now + Ttl(cfg)))
            && IsAllowed(cfg, longer, |longer| - 1) == (|pruned| < cfg.maxRequests)
            && |pruned| == |InWindow(cfg, history, now)|
            && (Increasing(longer) ==> |pruned| == |Recent(cfg, history, now)|)
  {
    OneMoreRequest(cfg, history, now);
    CountIsOfStamps(cfg, history, now);
  }

  /** One rate-limited key, with the requests it has seen. */
  class Limiter {
    const cfg: Config
    var key: SortedSet
    ghost var history: seq<int>

    ghost predicate Valid()
      reads this
    {
      key == After(cfg, history) && Ordered(history)
    }

    constructor (cfg: Config)
      ensures Valid() && history == [] && this.cfg == cfg
    {
      this.cfg, key, history := cfg, NO_KEY, [];
    }

    /** Prune, count, add, expire. */
    method Pipeline(now: int) returns (count: nat)
      modifies this`key
      ensures count == |Pruned(cfg, old(key), now)|
      ensures key == SortedSet(Pruned(cfg, old(key), now) + {now}, Some(now + Ttl(cfg)))
    {
      var members := Live(key, now);
      members := set m | m in members && now - cfg.window < m;
      assert members == Pruned(cfg, key, now);
      count := |members|;
      key := SortedSet(members + {now}, Some(now + Ttl(cfg)));
    }

    /** The pipeline, and then the verdict. */
    method Check(now: int) returns (allowed: bool, remaining: int)
      requires Valid() && (history != [] ==> history[|history| - 1] <= now)
      modifies this
      ensures Valid() && history == old(history) + [now]
      ensures allowed == IsAllowed(cfg, history, |history| - 1)
      ensures allowed <==> |InWindow(cfg, old(history), now)| < cfg.maxRequests
      ensures allowed ==> remaining == cfg.maxRequests - |InWindow(cfg, old(history), now)| - 1
      ensures Increasing(history) ==> (allowed <==> |Recent(cfg, old(history), now)| < cfg.maxRequests)
      ensures !allowed ==> remaining == 0
    {
      Judge(cfg, history, now);
      var count := Pipeline(now);
      history := history + [now];
      remaining := if cfg.maxRequests - count - 1 > 0 then cfg.maxRequests - count - 1 else 0;
      if count >= cfg.maxRequests {
        return false, 0;
      }
      return true, remaining;
    }
  }
}
