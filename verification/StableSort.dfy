// Python's sorted(): a stable sort by a key, here an insertion sort over a comparison.

module StableSort {
  import opened Sequences

  ghost predicate TotalPreorder<T(!new)>(le: (T, T) -> bool) {
    && (forall x, y :: le(x, y) || le(y, x))
    && (forall x, y, z :: le(x, y) && le(y, z) ==> le(x, z))
  }

  ghost predicate Sorted<T>(le: (T, T) -> bool, s: seq<T>) {
    forall i, j | 0 <= i < j < |s| :: le(s[i], s[j])
  }

  // Equal elements keep the order in which `tie` held of them.
  ghost predicate SortedWithTies<T>(le: (T, T) -> bool, tie: (T, T) -> bool, s: seq<T>) {
    forall i, j | 0 <= i < j < |s| :: le(s[i], s[j]) && (le(s[j], s[i]) ==> tie(s[i], s[j]))
  }

  function Insert<T>(le: (T, T) -> bool, x: T, s: seq<T>): (r: seq<T>)
    ensures |r| == |s| + 1
    ensures multiset(r) == multiset{x} + multiset(s)
  {
    if s == [] then [x]
    else if le(x, s[0]) then [x] + s
    else
      assert s == [s[0]] + s[1..];
      [s[0]] + Insert(le, x, s[1..])
  }

  function Sort<T>(le: (T, T) -> bool, s: seq<T>): (r: seq<T>)
    ensures |r| == |s|
    ensures multiset(r) == multiset(s)
  {
    if s == [] then []
    else
      assert s == [s[0]] + s[1..];
      Insert(le, s[0], Sort(le, s[1..]))
  }

  lemma TiesBehind<T>(le: (T, T) -> bool, tie: (T, T) -> bool, x: T, s: seq<T>)
    requires SortedWithTies(le, tie, s) && forall y | y in s :: le(x, y) && (le(y, x) ==> tie(x, y))
    ensures SortedWithTies(le, tie, [x] + s)
  {
  }

  lemma TiesOfTail<T>(le: (T, T) -> bool, tie: (T, T) -> bool, s: seq<T>)
    requires SortedWithTies(le, tie, s) && s != []
    ensures SortedWithTies(le, tie, s[1..])
    ensures forall y | y in s[1..] :: le(s[0], y) && (le(y, s[0]) ==> tie(s[0], y))
  {
  }

  lemma {:induction false} InsertKeepsTies<T(!new)>(le: (T, T) -> bool, tie: (T, T) -> bool, x: T, s: seq<T>)
    requires TotalPreorder(le) && SortedWithTies(le, tie, s)
    requires forall y | y in s :: tie(x, y)
    ensures SortedWithTies(le, tie, Insert(le, x, s))
  {
    if s == [] {
      assert SortedWithTies(le, tie, [x]);
    } else {
      TiesOfTail(le, tie, s);
      hide SortedWithTies;
      assert s == [s[0]] + s[1..];
      if le(x, s[0]) {
        TiesBehind(le, tie, x, s);
      } else {
        var rest := Insert(le, x, s[1..]);
        InsertKeepsTies(le, tie, x, s[1..]);
        forall y | y in rest
          ensures le(s[0], y) && (le(y, s[0]) ==> tie(s[0], y))
        {
          assert y in multiset(rest);
          assert y == x || y in s[1..];
        }
        TiesBehind(le, tie, s[0], rest);
      }
    }
  }

  // Sorting a list that is already ordered by `tie` orders it by `le`, then by `tie`.
  lemma {:induction false} SortKeepsTies<T(!new)>(le: (T, T) -> bool, tie: (T, T) -> bool, s: seq<T>)
    requires TotalPreorder(le)
    requires forall i, j | 0 <= i < j < |s| :: tie(s[i], s[j])
    ensures SortedWithTies(le, tie, Sort(le, s))
  {
    if s != [] {
      SortKeepsTies(le, tie, s[1..]);
      SameMembers(Sort(le, s[1..]), s[1..]);
      InsertKeepsTies(le, tie, s[0], Sort(le, s[1..]));
    }
  }

  lemma SortIsSorted<T(!new)>(le: (T, T) -> bool, s: seq<T>)
    requires TotalPreorder(le)
    ensures Sorted(le, Sort(le, s))
  {
    SortKeepsTies(le, (x, y) => true, s);
  }

  lemma NotTheHead<T(!new)>(lt: (T, T) -> bool, s: seq<T>, x: T)
    requires forall x, y :: !(lt(x, y) && lt(y, x))
    requires Sorted(lt, s) && s != []
    ensures x in s[1..] <==> x in s && x != s[0]
  {
    assert s == [s[0]] + s[1..];
    if x in s[1..] {
      assert lt(s[0], x);
    }
  }

  // A strict order leaves one way to list some elements.
  lemma {:induction false} OrderIsUnique<T(!new)>(lt: (T, T) -> bool, a: seq<T>, b: seq<T>)
    requires forall x, y :: !(lt(x, y) && lt(y, x))
    requires Sorted(lt, a) && Sorted(lt, b)
    requires forall x :: x in a <==> x in b
    ensures a == b
  {
    if a != [] || b != [] {
      assert a != [] ==> a[0] in b;
      assert b != [] ==> b[0] in a;
      assert a[0] == b[0];
      forall x
        ensures x in a[1..] <==> x in b[1..]
      {
        NotTheHead(lt, a, x);
        NotTheHead(lt, b, x);
      }
      OrderIsUnique(lt, a[1..], b[1..]);
      assert a == [a[0]] + a[1..] && b == [b[0]] + b[1..];
    }
  }
}
