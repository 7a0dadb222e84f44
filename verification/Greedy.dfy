// The segmentation shared by both batch planners of the repository: walk a list once, grow a
// current segment while the next item may join it, otherwise cut.

module Greedy {

  // A segment stops growing once it weighs `min`, may not exceed `max` unless it is a single
  // item, and holds at most `cap` items (a cap below one still lets single items through).
  datatype Budget = Budget(min: int, max: int, cap: int)

  // What the items from one index up to another weigh together.
  type Weight = (nat, nat) -> int

  // The items [from, to).
  datatype Run = Run(from: nat, to: nat)

  // May item m join the segment [i, m)?
  predicate Joins(b: Budget, w: Weight, i: nat, m: nat) {
    m - i < b.cap && w(i, m) < b.min && w(i, m + 1) <= b.max
  }

  // Every item after the first was allowed to join the ones before it.
  ghost predicate Admissible(b: Budget, w: Weight, r: Run) {
    r.from < r.to && forall m: nat | r.from < m < r.to :: Joins(b, w, r.from, m)
  }

  // The segments of [start, n) when the walk has reached item m with [start, m) as current segment.
  function GreedyFrom(b: Budget, w: Weight, start: nat, m: nat, n: nat): seq<Run>
    requires start <= m <= n
    decreases n - m, m - start
  {
    if m == n then
      if start < m then [Run(start, m)] else []
    else if start < m && !Joins(b, w, start, m) then [Run(start, m)] + GreedyFrom(b, w, m, m, n)
    else GreedyFrom(b, w, start, m + 1, n)
  }

  function GreedyRuns(b: Budget, w: Weight, n: nat): seq<Run> {
    GreedyFrom(b, w, 0, 0, n)
  }

  // The segments cut [i, n) into consecutive non-empty pieces.
  predicate Cutting(runs: seq<Run>, i: nat, n: nat) {
    if runs == [] then i == n
    else runs[0].from == i && i < runs[0].to <= n && Cutting(runs[1..], runs[0].to, n)
  }

  ghost predicate AllAdmissible(b: Budget, w: Weight, runs: seq<Run>) {
    forall r | r in runs :: Admissible(b, w, r)
  }

  // No segment could have taken the item after it.
  ghost predicate Maximal(b: Budget, w: Weight, runs: seq<Run>, n: nat) {
    forall r | r in runs :: r.to < n ==> !Joins(b, w, r.from, r.to)
  }

  // Sub-segments never weigh more than the segment they are taken from.
  ghost predicate Monotone(w: Weight, n: nat) {
    forall i: nat, i': nat, j: nat, j': nat | i <= i' <= j' <= j <= n :: w(i', j') <= w(i, j)
  }

  lemma {:induction false} GreedyShape(b: Budget, w: Weight, start: nat, m: nat, n: nat)
    requires start <= m <= n
    requires start == m || Admissible(b, w, Run(start, m))
    ensures Cutting(GreedyFrom(b, w, start, m, n), start, n)
    ensures AllAdmissible(b, w, GreedyFrom(b, w, start, m, n))
    ensures Maximal(b, w, GreedyFrom(b, w, start, m, n), n)
    decreases n - m, m - start
  {
    if m < n {
      if start < m && !Joins(b, w, start, m) {
        GreedyShape(b, w, m, m, n);
      } else {
        GreedyShape(b, w, start, m + 1, n);
      }
    }
  }

  // A segment that greedy is in the middle of is cut where it stops being able to grow.
  lemma {:induction false} GreedyReaches(b: Budget, w: Weight, i: nat, m: nat, j: nat, n: nat)
    requires i <= m <= j <= n && Admissible(b, w, Run(i, j))
    requires j == n || !Joins(b, w, i, j)
    ensures GreedyFrom(b, w, i, m, n) == [Run(i, j)] + GreedyFrom(b, w, j, j, n)
    decreases j - m
  {
    if m < j {
      GreedyReaches(b, w, i, m + 1, j, n);
    }
  }

  // Being admissible and maximal pins the segments down completely.
  lemma {:induction false} GreedyIsUnique(b: Budget, w: Weight, runs: seq<Run>, i: nat, n: nat)
    requires i <= n && Cutting(runs, i, n) && AllAdmissible(b, w, runs) && Maximal(b, w, runs, n)
    ensures runs == GreedyFrom(b, w, i, i, n)
    decreases |runs|
  {
    if runs != [] {
      var r := runs[0];
      assert r in runs;
      GreedyReaches(b, w, i, i, r.to, n);
      GreedyIsUnique(b, w, runs[1..], r.to, n);
      assert runs == [r] + runs[1..];
    }
  }

  // A later start never makes it harder to join.
  lemma JoinsInherited(b: Budget, w: Weight, n: nat, i: nat, i': nat, m: nat)
    requires Monotone(w, n) && i <= i' <= m < n && Joins(b, w, i, m)
    ensures Joins(b, w, i', m)
  {
    assert w(i', m) <= w(i, m) && w(i', m + 1) <= w(i, m + 1);
  }

  // With weights that only grow, greedy needs no more segments for [i, n) than any admissible
  // cutting of the longer [j, n) does.
  lemma {:induction false} GreedyNeedsFewest(
    b: Budget, w: Weight, g: seq<Run>, p: seq<Run>, i: nat, j: nat, n: nat)
    requires Monotone(w, n) && j <= i
    requires Cutting(g, i, n) && Maximal(b, w, g, n)
    requires Cutting(p, j, n) && AllAdmissible(b, w, p)
    ensures |g| <= |p|
    decreases |p|
  {
    if g != [] && p != [] {
      var r, q := g[0], p[0];
      assert r in g && q in p;
      if q.to <= i {
        GreedyNeedsFewest(b, w, g, p[1..], i, q.to, n);
      } else {
        if r.to < q.to {
          assert Joins(b, w, j, r.to);
          JoinsInherited(b, w, n, j, i, r.to);
        }
        GreedyNeedsFewest(b, w, g[1..], p[1..], r.to, q.to, n);
      }
    }
  }

  lemma GreedyIsOptimal(b: Budget, w: Weight, p: seq<Run>, n: nat)
    requires Monotone(w, n) && Cutting(p, 0, n) && AllAdmissible(b, w, p)
    ensures |GreedyRuns(b, w, n)| <= |p|
  {
    GreedyShape(b, w, 0, 0, n);
    GreedyNeedsFewest(b, w, GreedyRuns(b, w, n), p, 0, 0, n);
  }
}
