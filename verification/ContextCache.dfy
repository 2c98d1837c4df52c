/**
 The cache of assembled contexts. Requests look a document up by repository and commit; on a miss they read
 the repository's name and the snapshot's file tree, assemble the document, and store it in the background.
 All of these are separate steps, and names, trees and snapshots may change in between.
 */
module ContextCache {
  import opened Wrappers
  import opened Sets
  import opened Paths
  import opened Assembly

  type RepoId = string
  type RequestId = nat

  function Key(repo: RepoId, sha: string): string {
    "ctx:" + repo + ":" + sha
  }

  /** Repository ids are UUIDs, which have no colon; then different documents have different keys. */
  lemma KeyInjective(repo: RepoId, sha: string, repo': RepoId, sha': string)
    requires ':' !in repo && ':' !in repo' && Key(repo, sha) == Key(repo', sha')
    ensures repo == repo' && sha == sha'
  {
    var k, k' := Key(repo, sha), Key(repo', sha');
    assert k[4..] == repo + ":" + sha && k'[4..] == repo' + ":" + sha';
    FirstColonSplits(repo, sha, repo', sha');
  }

  lemma FirstColonSplits(a: string, b: string, a': string, b': string)
    requires ':' !in a && ':' !in a' && a + ":" + b == a' + ":" + b'
    ensures a == a' && b == b'
  {
    var s, s' := a + ":" + b, a' + ":" + b';
    assert s[|a|] == ':' && s'[|a'|] == ':';
    assert |a| == |a'|;
    assert a == s[..|a|] && a' == s'[..|a'|];
    assert b == s[|a| + 1..] && b' == s'[|a'| + 1..];
  }

  // -- The state machine --

  /** A snapshot; its file tree is stored under its repository and commit. */
  datatype Snapshot = Snapshot(repo: RepoId, sha: string)

  /** A request that missed the cache, with what it has read so far. Its snapshot may be one of another repository. */
  datatype Request = Request(repo: RepoId, snap: Snapshot, name: Option<string>, tree: Option<seq<FileEntry>>)

  datatype Fill = Fill(key: string, doc: string)

  datatype State = State(
    names: map<RepoId, string>, storage: map<Snapshot, seq<FileEntry>>, requests: map<RequestId, Request>,
    fills: set<Fill>, cache: map<string, string>)

  datatype Event =
    | Miss(r: RequestId, repo: RepoId, snap: Snapshot)
    | ReadName(r: RequestId)
    | ReadTree(r: RequestId)
    | Finish(r: RequestId)
    | GiveUp(r: RequestId)
    | Store(fill: Fill)
    | Evict(key: string)
    | Rename(repo: RepoId, name: string)
    | PutTree(snap: Snapshot, tree: seq<FileEntry>)

  predicate Enabled(s: State, e: Event) {
    match e
    case Miss(r, repo, snap) => r !in s.requests && Key(repo, snap.sha) !in s.cache
    case ReadName(r) => r in s.requests && s.requests[r].repo in s.names
    case ReadTree(r) => r in s.requests && s.requests[r].snap in s.storage
    case Finish(r) => r in s.requests && s.requests[r].name.Some? && s.requests[r].tree.Some?
    case GiveUp(r) => r in s.requests
    case Store(fill) => fill in s.fills
    case _ => true
  }

  /** Git blobs by the name of their repository and their hash; the contents behind a hash do not change. */
  type Github = string -> Blobs

  function Doc(github: Github, name: string, sha: string, tree: seq<FileEntry>): string {
    Render(name, sha, tree, github(name))
  }

  function FillOf(github: Github, q: Request): Fill
    requires q.name.Some? && q.tree.Some?
  {
    Fill(Key(q.repo, q.snap.sha), Doc(github, q.name.value, q.snap.sha, q.tree.value))
  }

  function Apply(github: Github, s: State, e: Event): State
    requires Enabled(s, e)
  {
    match e
    case Miss(r, repo, snap) => s.(requests := s.requests[r := Request(repo, snap, None, None)])
    case ReadName(r) =>
      s.(requests := s.requests[r := s.requests[r].(name := Some(s.names[s.requests[r].repo]))])
    case ReadTree(r) =>
      s.(requests := s.requests[r := s.requests[r].(tree := Some(s.storage[s.requests[r].snap]))])
    case Finish(r) =>
      var q := s.requests[r];
      s.(requests := s.requests - {r},
         fills := s.fills + {FillOf(github, q)})
    case GiveUp(r) => s.(requests := s.requests - {r})
    case Store(fill) => s.(fills := s.fills - {fill}, cache := s.cache[fill.key := fill.doc])
    case Evict(key) => s.(cache := s.cache - {key})
    case Rename(repo, name) => s.(names := s.names[repo := name])
    case PutTree(snap, tree) => s.(storage := s.storage[snap := tree])
  }

  /** One step of the system. */
  ghost predicate Next(github: Github, s: State, e: Event, s': State) {
    Enabled(s, e) && s' == Apply(github, s, e)
  }

  /** A stretch of steps from any state. */
  ghost predicate IsStretch(github: Github, run: seq<State>, events: seq<Event>) {
    |run| == |events| + 1 && forall i :: 0 <= i < |events| ==> Next(github, run[i], events[i], run[i + 1])
  }

  ghost predicate IsRun(github: Github, run: seq<State>, events: seq<Event>) {
    && IsStretch(github, run, events)
    && run[0].requests == map[] && run[0].fills == {} && run[0].cache == map[]
  }

  // -- Where cached documents come from --

  ghost predicate NameAt(s: State, repo: RepoId, name: string) {
    repo in s.names && s.names[repo] == name
  }

  /** In this state a request for the repository, with this snapshot, finds this tree. */
  ghost predicate TreeAt(s: State, repo: RepoId, snap: Snapshot, tree: seq<FileEntry>) {
    && snap in s.storage && s.storage[snap] == tree
    && exists r :: r in s.requests && s.requests[r].repo == repo && s.requests[r].snap == snap
  }

  ghost predicate NameWas(run: seq<State>, n: nat, repo: RepoId, name: string)
    requires n <= |run|
  {
    exists j :: 0 <= j < n && NameAt(run[j], repo, name)
  }

  ghost predicate TreeWas(run: seq<State>, n: nat, repo: RepoId, snap: Snapshot, tree: seq<FileEntry>)
    requires n <= |run|
  {
    exists j :: 0 <= j < n && TreeAt(run[j], repo, snap, tree)
  }

  /** Whatever the request has read was current when it was read. */
  ghost predicate RequestOk(run: seq<State>, n: nat, q: Request)
    requires n <= |run|
  {
    && (q.name.Some? ==> NameWas(run, n, q.repo, q.name.value))
    && (q.tree.Some? ==> TreeWas(run, n, q.repo, q.snap, q.tree.value))
  }

  ghost predicate MadeBy(github: Github, run: seq<State>, n: nat, f: Fill, q: Request)
    requires n <= |run|
  {
    q.name.Some? && q.tree.Some? && RequestOk(run, n, q) && f == FillOf(github, q)
  }

  /** The document is the complete rendering of a name and a tree that were current when a request read them. */
  ghost predicate Genuine(github: Github, run: seq<State>, n: nat, f: Fill)
    requires n <= |run|
  {
    exists q :: MadeBy(github, run, n, f, q)
  }

  function KeyOf(q: Request): string {
    Key(q.repo, q.snap.sha)
  }

  ghost predicate RequestsOk(run: seq<State>, n: nat, key: string, requests: map<RequestId, Request>)
    requires n <= |run|
  {
    forall r :: r in requests && KeyOf(requests[r]) == key ==> RequestOk(run, n, requests[r])
  }

  /** The cache entries and the stores still to come. */
  function Entries(s: State): set<Fill> {
    s.fills + set key | key in s.cache :: Fill(key, s.cache[key])
  }

  ghost predicate EntriesOk(github: Github, run: seq<State>, n: nat, key: string, entries: set<Fill>)
    requires n <= |run|
  {
    forall f :: f in entries && f.key == key ==> Genuine(github, run, n, f)
  }

  ghost predicate Inv(github: Github, run: seq<State>, key: string, i: nat)
    requires i < |run|
  {
    RequestsOk(run, i, key, run[i].requests) && EntriesOk(github, run, i, key, Entries(run[i]))
  }

  /** Nothing is cached under the key and nothing is on its way there. */
  ghost predicate IsBlank(s: State, key: string) {
    && (forall r :: r in s.requests ==> KeyOf(s.requests[r]) != key)
    && (forall f :: f in Entries(s) ==> f.key != key)
  }

  lemma StillOk(run: seq<State>, n: nat, q: Request)
    requires n < |run| && RequestOk(run, n, q)
    ensures RequestOk(run, n + 1, q)
  {
  }

  lemma StillGenuine(github: Github, run: seq<State>, n: nat, f: Fill)
    requires n < |run| && Genuine(github, run, n, f)
    ensures Genuine(github, run, n + 1, f)
  {
    var q :| MadeBy(github, run, n, f, q);
    StillOk(run, n, q);
    assert MadeBy(github, run, n + 1, f, q);
  }

  /** A step adds no entry except the document of a finished request. */
  lemma EntryFrom(github: Github, s: State, e: Event, f: Fill)
    requires Enabled(s, e) && f in Entries(Apply(github, s, e))
    ensures f in Entries(s) || (e.Finish? && f == FillOf(github, s.requests[e.r]))
  {
  }

  lemma StepKeepsRequests(github: Github, run: seq<State>, key: string, i: nat, e: Event)
    requires i + 1 < |run| && Next(github, run[i], e, run[i + 1])
    requires RequestsOk(run, i, key, run[i].requests)
    ensures RequestsOk(run, i + 1, key, run[i + 1].requests)
  {
    var s, after := run[i], run[i + 1].requests;
    forall r | r in after && KeyOf(after[r]) == key ensures RequestOk(run, i + 1, after[r]) {
      if r in s.requests {
        StillOk(run, i, s.requests[r]);
      }
      if e.ReadName? && e.r == r {
        assert NameAt(run[i], after[r].repo, after[r].name.value);
      } else if e.ReadTree? && e.r == r {
        assert TreeAt(run[i], after[r].repo, after[r].snap, after[r].tree.value);
      }
    }
  }

  lemma StepKeepsEntries(github: Github, run: seq<State>, key: string, i: nat, e: Event)
    requires i + 1 < |run| && Next(github, run[i], e, run[i + 1])
    requires Inv(github, run, key, i)
    ensures EntriesOk(github, run, i + 1, key, Entries(run[i + 1]))
  {
    var n, entries := i + 1, Entries(run[i + 1]);
    forall f | f in entries && f.key == key ensures Genuine(github, run, n, f) {
      EntryFrom(github, run[i], e, f);
      if f in Entries(run[i]) {
        StillGenuine(github, run, i, f);
      } else {
        StillOk(run, i, run[i].requests[e.r]);
        assert MadeBy(github, run, i + 1, f, run[i].requests[e.r]);
      }
    }
  }

  /** What is put under a blank key from then on is genuine, whatever is under the other keys. */
  lemma {:induction false} BlankKeepsGenuine(github: Github, run: seq<State>, events: seq<Event>, key: string, i: nat)
    requires IsStretch(github, run, events) && IsBlank(run[0], key) && i < |run|
    ensures Inv(github, run, key, i)
  {
    if i > 0 {
      BlankKeepsGenuine(github, run, events, key, i - 1);
      assert Next(github, run[i - 1], events[i - 1], run[i - 1 + 1]);
      StepKeepsRequests(github, run, key, i - 1, events[i - 1]);
      StepKeepsEntries(github, run, key, i - 1, events[i - 1]);
    }
  }

  /**
   In every run every cached document is complete, and is the rendering of a name and a tree that were
   current when some request with its key read them.
   */
  lemma CachedIsGenuine(github: Github, run: seq<State>, events: seq<Event>, i: nat, key: string)
    requires IsRun(github, run, events) && i < |run| && key in run[i].cache
    ensures Genuine(github, run, i, Fill(key, run[i].cache[key]))
  {
    BlankKeepsGenuine(github, run, events, key, i);
    assert Fill(key, run[i].cache[key]) in Entries(run[i]);
  }

  /** Neither the repository's name nor the tree stored for the commit differs from these. */
  ghost predicate Steady(s: State, snap: Snapshot, name: string, tree: seq<FileEntry>) {
    && (snap.repo in s.names ==> s.names[snap.repo] == name)
    && (snap in s.storage ==> s.storage[snap] == tree)
  }

  /** Requests for the repository and this commit use the repository's own snapshot; ids have no colon. */
  ghost predicate OwnSnapshots(s: State, snap: Snapshot) {
    forall r | r in s.requests ::
      && ':' !in s.requests[r].repo
      && (s.requests[r].repo == snap.repo && s.requests[r].snap.sha == snap.sha ==> s.requests[r].snap == snap)
  }

  lemma MadeFrom(
    github: Github, run: seq<State>, n: nat, snap: Snapshot, name: string, tree: seq<FileEntry>, f: Fill, q: Request)
    requires n <= |run| && MadeBy(github, run, n, f, q) && f.key == Key(snap.repo, snap.sha) && ':' !in snap.repo
    requires forall j | 0 <= j < n :: Steady(run[j], snap, name, tree) && OwnSnapshots(run[j], snap)
    ensures f.doc == Doc(github, name, snap.sha, tree)
  {
    var i :| 0 <= i < n && NameAt(run[i], q.repo, q.name.value);
    var j :| 0 <= j < n && TreeAt(run[j], q.repo, q.snap, q.tree.value);
    assert Steady(run[i], snap, name, tree);
    assert Steady(run[j], snap, name, tree) && OwnSnapshots(run[j], snap);
    KeyInjective(snap.repo, snap.sha, q.repo, q.snap.sha);
  }

  /**
   A hit returns what a miss would produce, as long as, since a moment when nothing was cached or on its way
   under the key, the repository's name and the tree stored for the commit have not changed and requests for
   the repository used its own snapshots.
   */
  lemma HitEqualsMiss(
    github: Github, run: seq<State>, events: seq<Event>, n: nat, snap: Snapshot, name: string, tree: seq<FileEntry>)
    requires IsStretch(github, run, events) && n < |run| && ':' !in snap.repo
    requires IsBlank(run[0], Key(snap.repo, snap.sha))
    requires forall j | 0 <= j < n :: Steady(run[j], snap, name, tree) && OwnSnapshots(run[j], snap)
    requires Key(snap.repo, snap.sha) in run[n].cache
    ensures run[n].cache[Key(snap.repo, snap.sha)] == Render(name, snap.sha, tree, github(name))
  {
    var key := Key(snap.repo, snap.sha);
    BlankKeepsGenuine(github, run, events, key, n);
    var f := Fill(key, run[n].cache[key]);
    assert f in Entries(run[n]);
    var q :| MadeBy(github, run, n, f, q);
    MadeFrom(github, run, n, snap, name, tree, f, q);
  }

  // -- A snapshot of another repository --

  /** The step relation. */
  ghost function Steps(github: Github): (State, Event, State) -> bool {
    (s, e, s') => Next(github, s, e, s')
  }

  lemma MissAndRead(github: Github, s: State, r: RequestId, repo: RepoId, snap: Snapshot) returns (s': State)
    requires r !in s.requests && Key(repo, snap.sha) !in s.cache && repo in s.names && snap in s.storage
    ensures Leads(Steps(github), s, [Miss(r, repo, snap), ReadName(r), ReadTree(r)], s')
    ensures s' == s.(requests := s.requests[r := Request(repo, snap, Some(s.names[repo]), Some(s.storage[snap]))])
  {
    var s1 := Apply(github, s, Miss(r, repo, snap));
    var s2 := Apply(github, s1, ReadName(r));
    s' := Apply(github, s2, ReadTree(r));
    assert Steps(github)(s, Miss(r, repo, snap), s1) && Steps(github)(s1, ReadName(r), s2);
    assert Steps(github)(s2, ReadTree(r), s');
    ThreeSteps(Steps(github), s, Miss(r, repo, snap), s1, ReadName(r), s2, ReadTree(r), s');
  }

  lemma FinishAndStore(github: Github, s: State, r: RequestId) returns (s': State)
    requires r in s.requests && s.requests[r].name.Some? && s.requests[r].tree.Some?
    ensures Leads(Steps(github), s, [Finish(r), Store(FillOf(github, s.requests[r]))], s')
    ensures s'.names == s.names && s'.storage == s.storage
    ensures s'.cache == s.cache[KeyOf(s.requests[r]) := FillOf(github, s.requests[r]).doc]
  {
    var fill := FillOf(github, s.requests[r]);
    var s1 := Apply(github, s, Finish(r));
    s' := Apply(github, s1, Store(fill));
    assert Steps(github)(s, Finish(r), s1) && Steps(github)(s1, Store(fill), s');
    TwoSteps(Steps(github), s, Finish(r), s1, Store(fill), s');
  }

  /** The step leaves the repository's name and the trees of the commit alone; repository ids have no colon. */
  predicate IsCalm(e: Event, own: Snapshot) {
    && (e.Rename? ==> e.repo != own.repo) && (e.PutTree? ==> e.snap.sha != own.sha)
    && (e.Miss? ==> ':' !in e.repo)
  }

  ghost predicate CalmlyLeads(github: Github, s: State, events: seq<Event>, s': State, own: Snapshot) {
    Leads(Steps(github), s, events, s') && forall e :: e in events ==> IsCalm(e, own)
  }

  /**
   A query may name a snapshot of another repository, and nothing compares the two: whatever tree that repository
   holds under the same commit hash is cached for this repository.
   */
  lemma ForeignSnapshotIsCached(github: Github, s: State, own: Snapshot, foreign: Snapshot)
    returns (events: seq<Event>, s': State)
    requires IsBlank(s, Key(own.repo, own.sha)) && ':' !in own.repo
    requires own.repo in s.names && foreign in s.storage && foreign.sha == own.sha
    ensures CalmlyLeads(github, s, events, s', own) && s'.names == s.names && s'.storage == s.storage
    ensures var key := Key(own.repo, own.sha);
            && key in s'.cache
            && s'.cache[key] == Render(s.names[own.repo], own.sha, s.storage[foreign], github(s.names[own.repo]))
  {
    var r := FreshNat(s.requests.Keys);
    assert forall key :: key in s.cache ==> Fill(key, s.cache[key]) in Entries(s);
    var mid := MissAndRead(github, s, r, own.repo, foreign);
    s' := FinishAndStore(github, mid, r);
    var before, after := [Miss(r, own.repo, foreign), ReadName(r), ReadTree(r)],
                         [Finish(r), Store(FillOf(github, mid.requests[r]))];
    Joined(Steps(github), s, before, mid, after, s');
    events := before + after;
  }

  /** The stored snapshots of the commit, in whichever repository, that give the document. */
  ghost predicate Renders(github: Github, s: State, own: Snapshot, doc: string) {
    exists snap :: snap in s.storage && IsRendering(github, s, own, snap, doc)
  }

  ghost predicate IsRendering(github: Github, s: State, own: Snapshot, snap: Snapshot, doc: string)
    requires snap in s.storage
  {
    && snap.sha == own.sha && own.repo in s.names
    && doc == Doc(github, s.names[own.repo], own.sha, s.storage[snap])
  }

  /** The tables that matter for the commit are the same in both states. */
  ghost predicate SameSources(s: State, s': State, own: Snapshot) {
    && own.repo in s.names && own.repo in s'.names && s'.names[own.repo] == s.names[own.repo]
    && forall snap: Snapshot :: snap.sha == own.sha ==>
         (snap in s.storage <==> snap in s'.storage) && (snap in s.storage ==> s'.storage[snap] == s.storage[snap])
  }

  /** What a request under the key has read is what the tables of `s` hold. */
  ghost predicate ReadFrom(s: State, own: Snapshot, q: Request) {
    && q.repo == own.repo && q.snap.sha == own.sha && own.repo in s.names
    && (q.name.Some? ==> q.name.value == s.names[own.repo])
    && (q.tree.Some? ==> q.snap in s.storage && q.tree.value == s.storage[q.snap])
  }

  /** From `s` on, whatever is under the key or on its way there renders a stored snapshot of the commit. */
  ghost predicate IsSourced(github: Github, s: State, s': State, own: Snapshot) {
    && SameSources(s, s', own)
    && (forall r :: r in s'.requests && KeyOf(s'.requests[r]) == Key(own.repo, own.sha) ==>
          ReadFrom(s, own, s'.requests[r]))
    && (forall f :: f in Entries(s') && f.key == Key(own.repo, own.sha) ==> Renders(github, s, own, f.doc))
  }

  lemma RequestsStaySourced(github: Github, s: State, mid: State, e: Event, own: Snapshot, r: RequestId)
    requires IsSourced(github, s, mid, own) && Enabled(mid, e) && IsCalm(e, own) && ':' !in own.repo
    requires r in Apply(github, mid, e).requests && KeyOf(Apply(github, mid, e).requests[r]) == Key(own.repo, own.sha)
    ensures ReadFrom(s, own, Apply(github, mid, e).requests[r])
  {
    if e.Miss? && e.r == r {
      KeyInjective(own.repo, own.sha, e.repo, e.snap.sha);
    } else {
      assert r in mid.requests && KeyOf(mid.requests[r]) == Key(own.repo, own.sha);
      assert ReadFrom(s, own, mid.requests[r]);
    }
  }

  lemma EntriesStaySourced(github: Github, s: State, mid: State, e: Event, own: Snapshot, f: Fill)
    requires IsSourced(github, s, mid, own) && Enabled(mid, e)
    requires f in Entries(Apply(github, mid, e)) && f.key == Key(own.repo, own.sha)
    ensures Renders(github, s, own, f.doc)
  {
    EntryFrom(github, mid, e, f);
    if f !in Entries(mid) {
      var q := mid.requests[e.r];
      assert KeyOf(q) == f.key && ReadFrom(s, own, q);
      assert IsRendering(github, s, own, q.snap, f.doc);
    }
  }

  lemma {:induction false} StaysSourced(github: Github, s: State, events: seq<Event>, s': State, own: Snapshot)
    requires CalmlyLeads(github, s, events, s', own) && IsSourced(github, s, s, own) && ':' !in own.repo
    ensures IsSourced(github, s, s', own)
    decreases |events|
  {
    if events != [] {
      var n := |events| - 1;
      var e := events[n];
      var mid :| Leads(Steps(github), s, events[..n], mid) && Steps(github)(mid, e, s');
      StaysSourced(github, s, events[..n], mid, own);
      assert IsCalm(e, own) && Next(github, mid, e, s');
      forall r | r in s'.requests && KeyOf(s'.requests[r]) == Key(own.repo, own.sha)
        ensures ReadFrom(s, own, s'.requests[r])
      {
        RequestsStaySourced(github, s, mid, e, own, r);
      }
      forall f | f in Entries(s') && f.key == Key(own.repo, own.sha) ensures Renders(github, s, own, f.doc) {
        EntriesStaySourced(github, s, mid, e, own, f);
      }
    }
  }

  ghost predicate HitIs(github: Github, s: State, own: Snapshot, events: seq<Event>, s': State, doc: string) {
    && CalmlyLeads(github, s, events, s', own)
    && Key(own.repo, own.sha) in s'.cache && s'.cache[Key(own.repo, own.sha)] == doc
  }

  /** Some stretch that leaves the name and the trees of the commit alone ends with the document under the key. */
  ghost predicate CanHit(github: Github, s: State, own: Snapshot, doc: string) {
    exists events, s' :: HitIs(github, s, own, events, s', doc)
  }

  /**
   Exactly what a hit can return, from a moment when the key is blank and with the name and the trees of the
   commit unchanged: the renderings of the snapshots of the commit that are stored for any repository.
   */
  lemma HitsExactlyWhen(github: Github, s: State, own: Snapshot, doc: string)
    requires IsBlank(s, Key(own.repo, own.sha)) && ':' !in own.repo && own.repo in s.names
    ensures CanHit(github, s, own, doc) <==> Renders(github, s, own, doc)
  {
    if CanHit(github, s, own, doc) {
      var events, s' :| HitIs(github, s, own, events, s', doc);
      StaysSourced(github, s, events, s', own);
      assert Fill(Key(own.repo, own.sha), doc) in Entries(s');
    }
    if Renders(github, s, own, doc) {
      var snap :| snap in s.storage && IsRendering(github, s, own, snap, doc);
      var events, s' := ForeignSnapshotIsCached(github, s, own, snap);
      assert HitIs(github, s, own, events, s', doc);
    }
  }

  /**
   So a hit can differ from what a miss with the repository's own snapshot would produce exactly when some stored
   snapshot of the same commit hash renders differently under the repository's name.
   */
  lemma HitCanDifferExactlyWhen(github: Github, s: State, own: Snapshot)
    requires IsBlank(s, Key(own.repo, own.sha)) && ':' !in own.repo && own.repo in s.names && own in s.storage
    ensures var name := s.names[own.repo];
            var miss := Render(name, own.sha, s.storage[own], github(name));
            (exists doc :: doc != miss && CanHit(github, s, own, doc))
            <==> exists snap :: snap in s.storage && snap.sha == own.sha
                                && Render(name, own.sha, s.storage[snap], github(name)) != miss
  {
    var miss := Doc(github, s.names[own.repo], own.sha, s.storage[own]);
    if doc :| doc != miss && CanHit(github, s, own, doc) {
      HitsExactlyWhen(github, s, own, doc);
      var snap :| snap in s.storage && IsRendering(github, s, own, snap, doc);
    }
    if snap :| snap in s.storage && snap.sha == own.sha
               && Doc(github, s.names[own.repo], own.sha, s.storage[snap]) != miss {
      var doc := Doc(github, s.names[own.repo], own.sha, s.storage[snap]);
      assert IsRendering(github, s, own, snap, doc);
      HitsExactlyWhen(github, s, own, doc);
    }
  }

  /** For one, a snapshot with the same files and more renders differently. */
  lemma MoreFilesDiffer(github: Github, name: string, sha: string, tree: seq<FileEntry>, more: seq<FileEntry>)
    requires more != []
    ensures Doc(github, name, sha, tree + more) != Doc(github, name, sha, tree)
  {
    LongerDocument(name, sha, tree, more, github(name));
  }

  // -- The in-memory cache and the handlers that fill it --

  class InMemoryCache {
    var store: map<string, string>

    constructor ()
      ensures store == map[]
    {
      store := map[];
    }

    method Get(key: string) returns (doc: Option<string>)
      ensures doc == if key in store then Some(store[key]) else None
    {
      if key in store {
        return Some(store[key]);
      }
      return None;
    }

    method Set(key: string, doc: string)
      modifies this
      ensures store == old(store)[key := doc]
    {
      store := store[key := doc];
    }

    /**
     The query handler: the cached document, or one assembled in memory and then cached, provided the tree
     and every blob could be read; otherwise nothing is cached.
     */
    method GetOrAssemble(
      github: Github, repo: RepoId, name: string, snap: Snapshot, tree: Option<seq<FileEntry>>, fetched: nat -> bool)
      returns (doc: Option<string>)
      modifies this
      ensures var key := "ctx:" + repo + ":" + snap.sha;
              if key in old(store) then doc == Some(old(store)[key]) && store == old(store)
              else if tree.Some? && AllFetched(|tree.value|, fetched)
              then && doc == Some(Render(name, snap.sha, tree.value, github(name)))
                   && store == old(store)[key := doc.value]
              else doc == None && store == old(store)
    {
      var key := Key(repo, snap.sha);
      var cached := Get(key);
      if cached.Some? {
        return cached;
      }
      if tree.None? {
        return None;
      }
      var builder := new Writer(_ => None);
      var ok := Assemble(name, snap.sha, tree.value, github(name), fetched, builder);
      if !ok {
        return None;
      }
      Set(key, builder.out);
      return Some(builder.out);
    }

    /**
     The context URL handler: the document is streamed to the client while it is assembled. What the client
     gets is a prefix of the cached document or of the new one, and the cache is filled exactly when the
     client got all of it without an error.
     */
    method Serve(
      github: Github, repo: RepoId, name: string, snap: Snapshot, tree: Option<seq<FileEntry>>,
      fetched: nat -> bool, plan: nat -> Option<nat>)
      returns (sent: string)
      modifies this
      ensures var key := "ctx:" + repo + ":" + snap.sha;
              if key in old(store)
              then sent <= old(store)[key] && (plan(0).None? ==> sent == old(store)[key]) && store == old(store)
              else if tree.None? then sent == "" && store == old(store)
              else
                var whole := Render(name, snap.sha, tree.value, github(name));
                && sent <= whole
                && (AllFetched(|tree.value|, fetched) && (forall k :: plan(k).None?) ==> sent == whole)
                && store == if sent == whole && plan(|tree.value|).None? then old(store)[key := whole] else old(store)
    {
      var key := Key(repo, snap.sha);
      var client := new Writer(plan);
      var cached := Get(key);
      if cached.Some? {
        var _ := client.Write(cached.value);
        return client.out;
      }
      if tree.None? {
        return "";
      }
      var ok := Assemble(name, snap.sha, tree.value, github(name), fetched, client);
      sent := client.out;
      if ok {
        Set(key, sent);
      }
    }
  }
}
