/**
 Webhook delivery with retries. A delivery's progress lives in three nullable columns, and the query that
 picks deliveries to send reads only those. One dispatcher runs; times are microseconds of one clock.
 */
module WebhookDelivery {
  import opened Wrappers
  import opened Sets

  const MAX_ATTEMPTS: nat := 5
  const MINUTE: int := 60_000_000

  type DeliveryId = nat

  datatype Delivery = Delivery(
    createdAt: int, attempts: nat, deliveredAt: Option<int>, nextRetryAt: Option<int>, response: Option<int>)

  /** A transport error, or the status of the response. */
  datatype Outcome = NoResponse | Responded(status: int) {
    predicate IsSuccess() {
      Responded? && 200 <= status < 300
    }
  }

  /** One send. `stored` is false when writing the result fails, which the dispatcher ignores. */
  datatype Attempt = Attempt(sentAt: int, doneAt: int, outcome: Outcome, stored: bool)

  function Pow2(n: nat): (r: nat)
    ensures r >= 1
  {
    if n == 0 then 1 else 2 * Pow2(n - 1)
  }

  function New(now: int): Delivery {
    Delivery(now, 0, None, None, None)
  }

  /** The WHERE clause of ListPendingDeliveries. */
  predicate IsPending(d: Delivery, now: int) {
    d.deliveredAt.None? && (d.nextRetryAt.None? || d.nextRetryAt.value <= now)
  }

  /** The row that processDelivery and recordFailure write. */
  function Processed(d: Delivery, o: Outcome, now: int): Delivery {
    var attempts := d.attempts + 1;
    if o.IsSuccess() then Delivery(d.createdAt, attempts, Some(now), None, Some(o.status))
    else
      Delivery(d.createdAt, attempts,
               if attempts >= MAX_ATTEMPTS then Some(now) else None,
               if attempts < MAX_ATTEMPTS then Some(now + Pow2(attempts) * MINUTE) else None,
               if o.Responded? && o.status > 0 then Some(o.status) else None)
  }

  /** The columns after a recorded result, spelled out. */
  lemma ProcessedIs(d: Delivery, o: Outcome, now: int)
    ensures var n, good := d.attempts + 1, o.Responded? && 200 <= o.status <= 299;
            Processed(d, o, now)
            == Delivery(d.createdAt, n,
                        if good || n >= 5 then Some(now) else None,
                        if good || n >= 5 then None else Some(now + Pow2(n) * 60_000_000),
                        if o.Responded? && o.status > 0 then Some(o.status) else None)
  {
  }

  // -- One delivery and its attempts --

  function RowAfter(createdAt: int, h: seq<Attempt>): Delivery {
    if h == [] then New(createdAt)
    else
      var d := RowAfter(createdAt, h[..|h| - 1]);
      var a := h[|h| - 1];
      if a.stored then Processed(d, a.outcome, a.doneAt) else d
  }

  /** Attempt `i` is made on a row that the query would pick, after the attempts before it. */
  ghost predicate IsLegal(createdAt: int, h: seq<Attempt>, i: int)
    requires 0 <= i < |h|
  {
    && IsPending(RowAfter(createdAt, h[..i]), h[i].sentAt) && h[i].sentAt <= h[i].doneAt
    && (i > 0 ==> h[i - 1].doneAt <= h[i].sentAt)
  }

  ghost predicate IsHistory(createdAt: int, h: seq<Attempt>) {
    forall i :: 0 <= i < |h| ==> IsLegal(createdAt, h, i)
  }

  function Stored(h: seq<Attempt>): nat {
    if h == [] then 0 else Stored(h[..|h| - 1]) + if h[|h| - 1].stored then 1 else 0
  }

  ghost predicate AllStored(h: seq<Attempt>) {
    forall i :: 0 <= i < |h| ==> h[i].stored
  }

  lemma {:induction false} AllStoredCounts(h: seq<Attempt>)
    requires AllStored(h)
    ensures Stored(h) == |h|
  {
    if h != [] {
      AllStoredCounts(h[..|h| - 1]);
    }
  }

  /** A recorded 2xx, or a fifth recorded attempt. */
  ghost predicate IsSettled(h: seq<Attempt>) {
    Stored(h) == MAX_ATTEMPTS || exists i :: 0 <= i < |h| && h[i].stored && h[i].outcome.IsSuccess()
  }

  lemma PrefixIsHistory(createdAt: int, h: seq<Attempt>, n: nat)
    requires IsHistory(createdAt, h) && n <= |h|
    ensures IsHistory(createdAt, h[..n])
  {
    forall i | 0 <= i < n ensures IsLegal(createdAt, h[..n], i) {
      assert h[..n][..i] == h[..i] && IsLegal(createdAt, h, i);
    }
  }

  lemma HistoryExtends(createdAt: int, h: seq<Attempt>, a: Attempt)
    requires IsHistory(createdAt, h) && IsPending(RowAfter(createdAt, h), a.sentAt) && a.sentAt <= a.doneAt
    requires h != [] ==> h[|h| - 1].doneAt <= a.sentAt
    ensures IsHistory(createdAt, h + [a])
    ensures RowAfter(createdAt, h + [a])
            == var d := RowAfter(createdAt, h); if a.stored then Processed(d, a.outcome, a.doneAt) else d
  {
    var h' := h + [a];
    assert h'[..|h|] == h;
    forall i | 0 <= i < |h'| ensures IsLegal(createdAt, h', i) {
      if i < |h| {
        assert h'[..i] == h[..i] && IsLegal(createdAt, h, i);
      }
    }
  }

  /** The row after any legal history: how often it was recorded, and closed exactly when it is settled. */
  lemma {:induction false} RowReflectsHistory(createdAt: int, h: seq<Attempt>)
    requires IsHistory(createdAt, h)
    ensures var d := RowAfter(createdAt, h);
            && d.attempts == Stored(h) <= 5
            && (d.deliveredAt.Some? <==> IsSettled(h))
            && (d.deliveredAt.None? && d.attempts > 0 ==> d.nextRetryAt.Some?)
  {
    if h != [] {
      var n := |h| - 1;
      var before := h[..n];
      PrefixIsHistory(createdAt, h, n);
      RowReflectsHistory(createdAt, before);
      assert IsLegal(createdAt, h, n);
      assert !IsSettled(before);
      assert forall i :: 0 <= i < n ==> before[i] == h[i];
    }
  }

  /** A closed delivery is never sent again: a settled history has no legal continuation. */
  lemma NeverSentAfterClose(createdAt: int, h: seq<Attempt>, i: nat)
    requires IsHistory(createdAt, h) && i <= |h| && IsSettled(h[..i])
    ensures i == |h|
  {
    assert i < |h| ==> IsLegal(createdAt, h, i);
    PrefixIsHistory(createdAt, h, i);
    RowReflectsHistory(createdAt, h[..i]);
  }

  /** At most five sends when results are stored, and one more for each result that was not. */
  lemma SentAtMostFiveTimes(createdAt: int, h: seq<Attempt>)
    requires IsHistory(createdAt, h)
    ensures Stored(h) <= 5
    ensures AllStored(h) ==> |h| <= 5
  {
    RowReflectsHistory(createdAt, h);
    if AllStored(h) {
      AllStoredCounts(h);
    }
  }

  /** Closed after its i-th send exactly when that send's result was recorded and was a 2xx or the fifth recorded. */
  lemma ClosedExactlyWhen(createdAt: int, h: seq<Attempt>, i: nat)
    requires IsHistory(createdAt, h) && 0 < i <= |h|
    ensures RowAfter(createdAt, h[..i]).deliveredAt.Some?
            <==> && h[i - 1].stored
                 && (|| (h[i - 1].outcome.Responded? && 200 <= h[i - 1].outcome.status <= 299)
                     || Stored(h[..i]) == 5)
  {
    assert h[..i][..i - 1] == h[..i - 1] && h[..i][i - 1] == h[i - 1];
    PrefixIsHistory(createdAt, h, i - 1);
    RowReflectsHistory(createdAt, h[..i - 1]);
    assert IsLegal(createdAt, h, i - 1);
  }

  /** A recorded 2xx is the last attempt. */
  lemma SuccessEnds(createdAt: int, h: seq<Attempt>, k: nat)
    requires IsHistory(createdAt, h) && k < |h| && h[k].stored
    requires h[k].outcome.Responded? && 200 <= h[k].outcome.status <= 299
    ensures k + 1 == |h|
  {
    assert h[..k + 1][k] == h[k];
    NeverSentAfterClose(createdAt, h, k + 1);
  }

  /** The wait after the k-th recorded failure is at least 2^k minutes. */
  lemma BackoffDoubles(createdAt: int, h: seq<Attempt>, i: nat)
    requires IsHistory(createdAt, h) && i + 1 < |h| && h[i].stored
    ensures h[i + 1].sentAt >= h[i].doneAt + Pow2(Stored(h[..i + 1])) * MINUTE
  {
    PrefixIsHistory(createdAt, h, i + 1);
    RowReflectsHistory(createdAt, h[..i + 1]);
    assert h[..i + 1][..i] == h[..i];
    assert IsLegal(createdAt, h, i + 1);
  }

  /** After the k-th recorded failure, if it is not the fifth, the row waits for exactly 2^k minutes. */
  lemma PendingExactlyFrom(createdAt: int, h: seq<Attempt>, now: int)
    requires IsHistory(createdAt, h) && h != [] && h[|h| - 1].stored && Stored(h) < 5
    requires h[|h| - 1].outcome.Responded? ==> !(200 <= h[|h| - 1].outcome.status <= 299)
    ensures var d := RowAfter(createdAt, h);
            d.deliveredAt == None && (d.nextRetryAt == None || d.nextRetryAt.value <= now)
            <==> now >= h[|h| - 1].doneAt + Pow2(Stored(h)) * 60_000_000
  {
    var n := |h| - 1;
    PrefixIsHistory(createdAt, h, n);
    RowReflectsHistory(createdAt, h[..n]);
    assert IsLegal(createdAt, h, n);
  }

  /** After k recorded failures the next send comes at least 2 + 4 + ... + 2^k minutes after the first. */
  lemma {:induction false} WaitsAddUp(createdAt: int, h: seq<Attempt>, i: nat)
    requires IsHistory(createdAt, h) && 0 < i < |h|
    ensures h[i].sentAt >= h[0].doneAt + (Pow2(Stored(h[..i]) + 1) - 2) * MINUTE
  {
    assert IsLegal(createdAt, h, i) && IsLegal(createdAt, h, i - 1);
    assert h[..i][..i - 1] == h[..i - 1];
    if h[i - 1].stored {
      BackoffDoubles(createdAt, h, i - 1);
    }
    if i > 1 {
      WaitsAddUp(createdAt, h, i - 1);
    }
  }

  /** So the send after four recorded failures comes at least thirty minutes after the first. */
  lemma FifthSendAfterHalfAnHour(createdAt: int, h: seq<Attempt>, i: nat)
    requires IsHistory(createdAt, h) && i < |h| && Stored(h[..i]) == 4
    ensures h[i].sentAt >= h[0].doneAt + 30 * 60_000_000
  {
    WaitsAddUp(createdAt, h, i);
    assert Pow2(1) == 2 && Pow2(2) == 4 && Pow2(3) == 8 && Pow2(4) == 16 && Pow2(5) == 32;
  }

  // -- The dispatcher --

  datatype Subscription = Subscription(org: nat, active: bool, events: set<string>) {
    /** The WHERE clause of ListActiveWebhooksByEvent. */
    predicate Wants(o: nat, event: string) {
      org == o && active && event in events
    }
  }

  /** What the environment answers when the dispatcher turns to a delivery. */
  datatype Reply = NoSubscription | Sent(attempt: Attempt)

  ghost predicate ClockOk(replies: seq<Reply>, now: int) {
    && (forall i :: 0 <= i < |replies| && replies[i].Sent? ==>
          now <= replies[i].attempt.sentAt <= replies[i].attempt.doneAt)
    && (forall i, j :: 0 <= i < j < |replies| && replies[i].Sent? && replies[j].Sent? ==>
          replies[i].attempt.doneAt <= replies[j].attempt.sentAt)
  }

  function CreatedAtIn(rows: map<DeliveryId, Delivery>): DeliveryId -> int {
    id => if id in rows then rows[id].createdAt else 0
  }

  /** A result of ListPendingDeliveries: up to `limit` pending rows, oldest first, none older left out. */
  ghost predicate IsPendingListing(rows: map<DeliveryId, Delivery>, now: int, limit: nat, ids: seq<DeliveryId>) {
    && (forall i :: 0 <= i < |ids| ==>
          && ids[i] in rows && rows[ids[i]].deliveredAt == None
          && (rows[ids[i]].nextRetryAt == None || rows[ids[i]].nextRetryAt.value <= now))
    && (forall i, j :: 0 <= i < j < |ids| ==> ids[i] != ids[j] && rows[ids[i]].createdAt <= rows[ids[j]].createdAt)
    && |ids| <= limit
    && (forall id :: id in rows && id !in ids && rows[id].deliveredAt == None
                     && (rows[id].nextRetryAt == None || rows[id].nextRetryAt.value <= now) ==>
          |ids| == limit && forall i :: 0 <= i < |ids| ==> rows[ids[i]].createdAt <= rows[id].createdAt)
  }

  lemma ListedIsPending(
    rows: map<DeliveryId, Delivery>, now: int, limit: nat, pending: set<DeliveryId>, ids: seq<DeliveryId>,
    rest: set<DeliveryId>)
    requires pending == set id | id in rows && IsPending(rows[id], now)
    requires Listed(pending, CreatedAtIn(rows), ids, rest) && |ids| <= limit && (rest != {} ==> |ids| == limit)
    ensures IsPendingListing(rows, now, limit, ids)
  {
    var key := CreatedAtIn(rows);
    forall i | 0 <= i < |ids| ensures ids[i] in pending && key(ids[i]) == rows[ids[i]].createdAt {
      assert ids[i] in ids;
    }
    forall i, j | 0 <= i < j < |ids| ensures ids[i] != ids[j] && rows[ids[i]].createdAt <= rows[ids[j]].createdAt {
      assert key(ids[i]) <= key(ids[j]);
    }
    forall id | id in rows && id !in ids && IsPending(rows[id], now)
      ensures |ids| == limit && forall i :: 0 <= i < |ids| ==> rows[ids[i]].createdAt <= rows[id].createdAt
    {
      assert id in pending && id in rest;
      forall i | 0 <= i < |ids| ensures rows[ids[i]].createdAt <= rows[id].createdAt {
        assert key(ids[i]) <= key(id);
      }
    }
  }

  type Attempts = map<DeliveryId, seq<Attempt>>

  /** The attempts after a batch over `ids`, one delivery after the other. */
  ghost function AfterBatch(log: Attempts, ids: seq<DeliveryId>, replies: seq<Reply>): Attempts
    requires |ids| <= |replies|
  {
    if ids == [] then log
    else
      var n := |ids| - 1;
      var before := AfterBatch(log, ids[..n], replies);
      if replies[n].Sent? && ids[n] in before then before[ids[n] := before[ids[n]] + [replies[n].attempt]] else before
  }

  /** A batch of distinct deliveries: one attempt more for each one sent, nothing new for any other. */
  lemma {:induction false} BatchSendsOnce(log: Attempts, ids: seq<DeliveryId>, replies: seq<Reply>)
    requires |ids| <= |replies| && forall i, j :: 0 <= i < j < |ids| ==> ids[i] != ids[j]
    requires forall i :: 0 <= i < |ids| ==> ids[i] in log
    ensures var after := AfterBatch(log, ids, replies);
            && after.Keys == log.Keys
            && (forall id :: id in log && id !in ids ==> after[id] == log[id])
            && (forall i :: 0 <= i < |ids| ==>
                  after[ids[i]] == log[ids[i]] + if replies[i].Sent? then [replies[i].attempt] else [])
  {
    if ids != [] {
      var n := |ids| - 1;
      BatchSendsOnce(log, ids[..n], replies);
      assert ids[n] !in ids[..n] && ids == ids[..n] + [ids[n]];
    }
  }

  class Dispatcher {
    var rows: map<DeliveryId, Delivery>
    var clock: int
    ghost var log: Attempts

    /** Every row is what its attempts make of it, and its attempts form a legal history up to now. */
    ghost predicate Valid()
      reads this
    {
      && log.Keys == rows.Keys
      && forall id {:trigger ValidRow(rows[id], log[id], clock)} :: id in rows ==> ValidRow(rows[id], log[id], clock)
    }

    static ghost predicate ValidRow(d: Delivery, h: seq<Attempt>, now: int) {
      && d == RowAfter(d.createdAt, h) && IsHistory(d.createdAt, h)
      && (h != [] ==> h[|h| - 1].doneAt <= now)
    }

    constructor (now: int)
      ensures Valid() && rows == map[] && clock == now
    {
      rows, log, clock := map[], map[], now;
    }

    /** Time passes. */
    method Advance(now: int)
      requires Valid() && clock <= now
      modifies this
      ensures Valid() && clock == now && rows == old(rows) && log == old(log)
    {
      forall id | id in rows ensures ValidRow(rows[id], log[id], now) {
        assert ValidRow(rows[id], log[id], clock);
      }
      clock := now;
    }

    /**
     One delivery, without attempts, for every active subscription of the organisation to the event; `ids` are
     the new rows' ids and `stored` says which inserts succeed, a failed one being skipped.
     */
    method Dispatch(subs: seq<Subscription>, org: nat, event: string, ids: seq<DeliveryId>, stored: seq<bool>)
      requires Valid() && |subs| == |ids| == |stored|
      requires forall i :: 0 <= i < |ids| ==> ids[i] !in rows
      requires forall i, j :: 0 <= i < j < |ids| ==> ids[i] != ids[j]
      modifies this
      ensures Valid() && clock == old(clock)
      ensures forall i :: 0 <= i < |ids| ==>
                (ids[i] in rows <==> subs[i].org == org && subs[i].active && event in subs[i].events && stored[i])
      ensures forall id :: id in rows && id !in old(rows) ==>
                id in ids && rows[id] == Delivery(clock, 0, None, None, None) && log[id] == []
      ensures forall id :: id in old(rows) ==> id in rows && rows[id] == old(rows)[id] && log[id] == old(log)[id]
    {
      var i := 0;
      while i < |subs|
        invariant 0 <= i <= |subs| && Valid() && clock == old(clock)
        invariant forall j :: 0 <= j < i ==> (ids[j] in rows <==> subs[j].Wants(org, event) && stored[j])
        invariant forall j :: i <= j < |ids| ==> ids[j] !in rows
        invariant forall id :: id in rows && id !in old(rows) ==> id in ids && rows[id] == New(clock) && log[id] == []
        invariant forall id :: id in old(rows) ==> id in rows && rows[id] == old(rows)[id] && log[id] == old(log)[id]
      {
        if subs[i].Wants(org, event) && stored[i] {
          AddDelivery(ids[i]);
        }
        i := i + 1;
      }
    }

    /** CreateWebhookDelivery: no attempts, no retry time. */
    method AddDelivery(id: DeliveryId)
      requires Valid() && id !in rows
      modifies this
      ensures Valid() && rows == old(rows)[id := New(old(clock))] && log == old(log)[id := []] && clock == old(clock)
    {
      rows, log := rows[id := New(clock)], log[id := []];
    }

    method ListPendingDeliveries(limit: nat) returns (ids: seq<DeliveryId>)
      ensures IsPendingListing(rows, clock, limit, ids)
    {
      var pending := set id | id in rows && IsPending(rows[id], clock);
      ghost var rest;
      ids, rest := OrderedQuery(pending, CreatedAtIn(rows), Some(limit));
      ListedIsPending(rows, clock, limit, pending, ids, rest);
    }

    /** UpdateWebhookDeliveryResult with what processDelivery and recordFailure put in it, unless the write fails. */
    method WriteResult(id: DeliveryId, a: Attempt)
      requires id in rows
      modifies this`rows
      ensures rows == if a.stored then old(rows)[id := Processed(old(rows)[id], a.outcome, a.doneAt)] else old(rows)
    {
      var d := rows[id];
      if a.stored {
        var attempts := d.attempts + 1;
        if a.outcome.IsSuccess() {
          rows := rows[id := Delivery(d.createdAt, attempts, Some(a.doneAt), None, Some(a.outcome.status))];
        } else {
          var nextRetry: Option<int> := None;
          if attempts < MAX_ATTEMPTS {
            nextRetry := Some(a.doneAt + Pow2(attempts) * MINUTE);
          }
          var delivered: Option<int> := if attempts >= MAX_ATTEMPTS then Some(a.doneAt) else None;
          var status := if a.outcome.Responded? && a.outcome.status > 0 then Some(a.outcome.status) else None;
          rows := rows[id := Delivery(d.createdAt, attempts, delivered, nextRetry, status)];
        }
      }
    }

    /** Send one delivery and write its result. */
    method ProcessDelivery(id: DeliveryId, a: Attempt)
      requires Valid() && id in rows && IsPending(rows[id], clock) && clock <= a.sentAt <= a.doneAt
      modifies this
      ensures Valid() && clock == a.doneAt && log == old(log)[id := old(log)[id] + [a]]
      ensures rows == if a.stored then old(rows)[id := Processed(old(rows)[id], a.outcome, a.doneAt)] else old(rows)
      ensures a.stored ==>
                var n := old(rows)[id].attempts + 1;
                var good := a.outcome.Responded? && 200 <= a.outcome.status <= 299;
                rows[id] == Delivery(old(rows)[id].createdAt, n,
                                     if good || n >= 5 then Some(a.doneAt) else None,
                                     if good || n >= 5 then None else Some(a.doneAt + Pow2(n) * 60_000_000),
                                     if a.outcome.Responded? && a.outcome.status > 0 then Some(a.outcome.status) else None)
    {
      var d := rows[id];
      assert ValidRow(d, log[id], clock);
      HistoryExtends(d.createdAt, log[id], a);
      ProcessedIs(d, a.outcome, a.doneAt);
      forall o | o in rows ensures ValidRow(rows[o], log[o], a.doneAt) {
        assert ValidRow(rows[o], log[o], clock);
      }
      WriteResult(id, a);
      log := log[id := log[id] + [a]];
      clock := a.doneAt;
    }

    /** Look up the subscription and, if it is there, send. */
    method HandleOne(id: DeliveryId, reply: Reply)
      requires Valid() && id in rows && IsPending(rows[id], clock)
      requires reply.Sent? ==> clock <= reply.attempt.sentAt <= reply.attempt.doneAt
      modifies this
      ensures Valid() && rows.Keys == old(rows).Keys
      ensures forall o :: o in rows && o != id ==> rows[o] == old(rows)[o]
      ensures clock == if reply.Sent? then reply.attempt.doneAt else old(clock)
      ensures log == if reply.Sent? then old(log)[id := old(log)[id] + [reply.attempt]] else old(log)
    {
      if reply.Sent? {
        ProcessDelivery(id, reply.attempt);
      }
    }

    method ProcessAll(ids: seq<DeliveryId>, replies: seq<Reply>)
      requires Valid() && |ids| <= |replies| && ClockOk(replies, clock)
      requires forall i :: 0 <= i < |ids| ==> ids[i] in rows && IsPending(rows[ids[i]], clock)
      requires forall i, j :: 0 <= i < j < |ids| ==> ids[i] != ids[j]
      modifies this
      ensures Valid() && log == AfterBatch(old(log), ids, replies)
    {
      var i := 0;
      while i < |ids|
        invariant 0 <= i <= |ids| && Valid() && old(clock) <= clock
        invariant forall k :: i <= k < |ids| ==> ids[k] in rows && IsPending(rows[ids[k]], clock)
        invariant forall k :: i <= k < |ids| && replies[k].Sent? ==> clock <= replies[k].attempt.sentAt
        invariant log == AfterBatch(old(log), ids[..i], replies)
      {
        assert ids[..i + 1][..i] == ids[..i];
        HandleOne(ids[i], replies[i]);
        i := i + 1;
      }
      assert ids[..i] == ids;
    }

    /**
     One batch. Every delivery keeps a legal history, so the results above hold of it; only listed
     deliveries are sent, each at most once, and only while pending.
     */
    method DeliverPending(now: int, limit: nat, replies: seq<Reply>) returns (ids: seq<DeliveryId>)
      requires Valid() && clock <= now && |replies| == limit && ClockOk(replies, now)
      modifies this
      ensures Valid() && IsPendingListing(old(rows), now, limit, ids)
      ensures log == AfterBatch(old(log), ids, replies)
    {
      Advance(now);
      ids := ListPendingDeliveries(limit);
      ProcessAll(ids, replies);
    }
  }
}
