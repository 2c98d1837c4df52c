/** What several components need of finite sets: sizes of subsets, least elements and ordered listings. */
module Sets {
  import opened Wrappers

  lemma SubsetSize<T>(a: set<T>, b: set<T>)
    requires a <= b
    ensures |a| <= |b|
  {
    assert b == a + (b - a);
  }

  lemma {:induction false} LeastExists<T>(s: set<T>, key: T -> int) returns (x: T)
    requires s != {}
    ensures x in s && forall y :: y in s ==> key(x) <= key(y)
    decreases s
  {
    x :| x in s;
    var rest := s - {x};
    assert forall y :: y in s ==> y == x || y in rest;
    if rest != {} {
      var other := LeastExists(rest, key);
      x := if key(other) < key(x) then other else x;
    }
  }

  lemma FreshNat(s: set<nat>) returns (n: nat)
    ensures n !in s
  {
    n := 0;
    if s != {} {
      var greatest := LeastExists(s, (x: nat) => 0 - x);
      n := greatest + 1;
    }
  }

  method Least<T(==)>(s: set<T>, key: T -> int) returns (x: T)
    requires s != {}
    ensures x in s && forall y :: y in s ==> key(x) <= key(y)
  {
    x :| x in s;
    var left := s - {x};
    while left != {}
      invariant left <= s && x in s
      invariant forall y :: y in s - left ==> key(x) <= key(y)
      decreases left
    {
      var y :| y in left;
      if key(y) < key(x) {
        x := y;
      }
      left := left - {y};
    }
  }

  // -- Ordered queries --

  ghost predicate Ascending<T>(xs: seq<T>, key: T -> int) {
    forall i, j :: 0 <= i < j < |xs| ==> key(xs[i]) <= key(xs[j])
  }

  ghost predicate Distinct<T>(xs: seq<T>) {
    forall i, j :: 0 <= i < j < |xs| ==> xs[i] != xs[j]
  }

  /** `xs` lists some of `rows` in order, and `rest` are the others, none of which belongs before them. */
  ghost predicate Listed<T(!new)>(rows: set<T>, key: T -> int, xs: seq<T>, rest: set<T>) {
    && Ascending(xs, key) && Distinct(xs)
    && (forall x :: x in rows <==> x in xs || x in rest)
    && (forall x, i :: x in rest && 0 <= i < |xs| ==> x != xs[i] && key(xs[i]) <= key(x))
  }

  lemma ListNext<T(!new)>(rows: set<T>, key: T -> int, xs: seq<T>, rest: set<T>, x: T)
    requires Listed(rows, key, xs, rest) && x in rest && forall y :: y in rest ==> key(x) <= key(y)
    ensures Listed(rows, key, xs + [x], rest - {x})
  {
    var longer := xs + [x];
    forall y ensures y in longer <==> y in xs || y == x {
    }
  }

  /** A query with ORDER BY and, where `limit` is given, LIMIT. */
  method OrderedQuery<T(==,!new)>(rows: set<T>, key: T -> int, limit: Option<nat>) returns (xs: seq<T>, ghost rest: set<T>)
    ensures Listed(rows, key, xs, rest)
    ensures limit.Some? ==> |xs| <= limit.value
    ensures rest != {} ==> limit.Some? && |xs| == limit.value
  {
    xs := [];
    var left := rows;
    while left != {} && (limit.None? || |xs| < limit.value)
      invariant Listed(rows, key, xs, left) && (limit.Some? ==> |xs| <= limit.value)
      decreases left
    {
      var x := Least(left, key);
      ListNext(rows, key, xs, left, x);
      xs, left := xs + [x], left - {x};
    }
    rest := left;
  }
}
