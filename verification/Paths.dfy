/** Stretches of a run from any state, for any transition system given by its step relation. */
module Paths {
  /** The given steps, one after the other with nothing in between, lead from `s` to `s'`. */
  ghost predicate Leads<S(!new), E>(next: (S, E, S) -> bool, s: S, events: seq<E>, s': S)
    decreases |events|
  {
    if events == [] then s' == s
    else
      var init, last := events[..|events| - 1], events[|events| - 1];
      exists mid :: Leads(next, s, init, mid) && next(mid, last, s')
  }

  /** One more step. */
  lemma Then<S(!new), E>(next: (S, E, S) -> bool, s: S, events: seq<E>, mid: S, e: E, s': S)
    requires Leads(next, s, events, mid) && next(mid, e, s')
    ensures Leads(next, s, events + [e], s')
  {
    var longer := events + [e];
    assert longer[..|longer| - 1] == events;
  }

  lemma TwoSteps<S(!new), E>(next: (S, E, S) -> bool, s: S, e1: E, s1: S, e2: E, s2: S)
    requires next(s, e1, s1) && next(s1, e2, s2)
    ensures Leads(next, s, [e1, e2], s2)
  {
    Then(next, s, [], s, e1, s1);
    Then(next, s, [] + [e1], s1, e2, s2);
    assert [] + [e1] + [e2] == [e1, e2];
  }

  lemma ThreeSteps<S(!new), E>(next: (S, E, S) -> bool, s: S, e1: E, s1: S, e2: E, s2: S, e3: E, s3: S)
    requires next(s, e1, s1) && next(s1, e2, s2) && next(s2, e3, s3)
    ensures Leads(next, s, [e1, e2, e3], s3)
  {
    TwoSteps(next, s, e1, s1, e2, s2);
    Then(next, s, [e1, e2], s2, e3, s3);
    assert [e1, e2] + [e3] == [e1, e2, e3];
  }

  /** One stretch after another. */
  lemma {:induction false} Joined<S(!new), E>(
    next: (S, E, S) -> bool, s: S, before: seq<E>, mid: S, after: seq<E>, s': S)
    requires Leads(next, s, before, mid) && Leads(next, mid, after, s')
    ensures Leads(next, s, before + after, s')
    decreases |after|
  {
    if after == [] {
      assert before + after == before;
    } else {
      var n := |after| - 1;
      var last :| Leads(next, mid, after[..n], last) && next(last, after[n], s');
      Joined(next, s, before, mid, after[..n], last);
      Then(next, s, before + after[..n], last, after[n], s');
      assert before + after == before + after[..n] + [after[n]];
    }
  }
}
