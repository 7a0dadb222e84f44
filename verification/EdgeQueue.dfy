// The buffer seen as a queue: its items from the oldest to the newest, and what pruning keeps of them.

module EdgeQueue {
  import opened EdgeDisk
  import opened Sequences
  import opened StableSort

  datatype Item = Item(id: Id, at: real, size: nat)

  // By creation time, and by name where the times are equal.
  predicate Before(a: Item, b: Item) {
    a.at < b.at || (a.at == b.at && a.id < b.id)
  }

  predicate Earlier(a: Id, b: Id) {
    a < b
  }

  function ItemOf(d: Disk, id: Id): Item
    requires id in d.metas && d.metas[id].Meta?
  {
    Item(d.metas[id].item, d.metas[id].at, d.metas[id].size)
  }

  ghost predicate HoldsExactly(d: Disk, s: seq<Item>) {
    forall x :: x in s <==> x.id in Live(d) && x == ItemOf(d, x.id)
  }

  predicate Least(s: set<Id>, x: Id) {
    x in s && forall y | y in s :: x <= y
  }

  lemma {:induction false} LeastName(s: set<Id>)
    requires s != {}
    ensures exists x :: Least(s, x)
    decreases s
  {
    var x :| x in s;
    if s - {x} == {} {
      assert s == {x};
      assert Least(s, x);
    } else {
      LeastName(s - {x});
      var z :| Least(s - {x}, z);
      assert s == s - {x} + {x};
      assert Least(s, if x <= z then x else z);
    }
  }

  function Names(s: set<Id>): (r: seq<Id>)
    ensures Sorted(Earlier, r)
    ensures forall x :: x in r <==> x in s
    decreases s
  {
    if s == {} then []
    else
      LeastName(s);
      var x :| x in s && Least(s, x);
      assert s == s - {x} + {x};
      [x] + Names(s - {x})
  }

  // The items among the first n names.
  ghost function Listed(d: Disk, names: seq<Id>, n: nat): seq<Item>
    requires n <= |names|
  {
    if n == 0 then []
    else Listed(d, names, n - 1) + if names[n - 1] in Live(d) then [ItemOf(d, names[n - 1])] else []
  }

  // The items in the order of their names.
  ghost function Listing(d: Disk): seq<Item> {
    var names := Names(d.metas.Keys);
    Listed(d, names, |names|)
  }

  predicate ByName(a: Item, b: Item) {
    a.id < b.id
  }

  predicate ByAge(a: Item, b: Item) {
    a.at <= b.at
  }

  lemma {:induction false} ListedShape(d: Disk, names: seq<Id>, n: nat)
    requires Sound(d) && n <= |names| && Sorted(Earlier, names)
    ensures Sorted(ByName, Listed(d, names, n))
    ensures forall x :: x in Listed(d, names, n) <==> x.id in names[..n] && x.id in Live(d) && x == ItemOf(d, x.id)
  {
    if n > 0 {
      ListedShape(d, names, n - 1);
      assert names[..n] == names[..n - 1] + [names[n - 1]];
      forall x | x in Listed(d, names, n - 1)
        ensures x.id < names[n - 1]
      {
        var k :| 0 <= k < n - 1 && names[k] == x.id;
        assert Earlier(names[k], names[n - 1]);
      }
    }
  }

  lemma ListingShape(d: Disk)
    requires Sound(d)
    ensures Sorted(ByName, Listing(d)) && HoldsExactly(d, Listing(d))
  {
    var names := Names(d.metas.Keys);
    ListedShape(d, names, |names|);
    assert names[..|names|] == names;
  }

  lemma ListingIsUnique(d: Disk, s: seq<Item>)
    requires Sound(d) && Sorted(ByName, s) && HoldsExactly(d, s)
    ensures Listing(d) == s
  {
    ListingShape(d);
    OrderIsUnique(ByName, Listing(d), s);
  }

  // The items from the oldest to the newest.
  ghost function Queue(d: Disk): seq<Item> {
    Sort(ByAge, Listing(d))
  }

  lemma QueueShape(d: Disk)
    requires Sound(d)
    ensures Sorted(Before, Queue(d)) && HoldsExactly(d, Queue(d))
  {
    hide Listing, Sound, Live, ItemOf;
    ListingShape(d);
    SortKeepsTies(ByAge, ByName, Listing(d));
    SameMembers(Queue(d), Listing(d));
  }

  // The queue in full: what is in it, and in what order.
  lemma QueueInFull(d: Disk)
    requires Sound(d)
    ensures forall x :: x in Queue(d) <==>
      x.id in d.payloads && x.id in d.metas && d.metas[x.id] == Meta(x.id, x.at, x.size)
    ensures forall i, j | 0 <= i < j < |Queue(d)| ::
      || Queue(d)[i].at < Queue(d)[j].at
      || (Queue(d)[i].at == Queue(d)[j].at && Queue(d)[i].id < Queue(d)[j].id)
  {
    QueueShape(d);
    hide Queue;
    forall i, j | 0 <= i < j < |Queue(d)|
      ensures Before(Queue(d)[i], Queue(d)[j])
    {
    }
  }

  lemma QueueIsUnique(d: Disk, q: seq<Item>)
    requires Sound(d) && Sorted(Before, q) && HoldsExactly(d, q)
    ensures Queue(d) == q
  {
    QueueShape(d);
    OrderIsUnique(Before, Queue(d), q);
  }

  lemma NoRepeat<T>(lt: (T, T) -> bool, s: seq<T>, n: nat)
    requires Sorted(lt, s) && n < |s| && !lt(s[n], s[n])
    ensures s[n] !in s[..n]
  {
    forall k | 0 <= k < n
      ensures s[k] != s[n]
    {
      assert lt(s[k], s[n]);
    }
  }

  // A listing has looked at the first n names: what is no item among them is gone, and everything
  // else is as before.
  ghost predicate Swept(before: Disk, d: Disk, names: seq<Id>, n: nat)
    requires n <= |names|
  {
    && d == before.(metas := d.metas)
    && (forall id :: id in d.metas <==> id in before.metas && (id in Live(before) || id !in names[..n]))
    && (forall id | id in d.metas :: d.metas[id] == before.metas[id])
  }

  lemma SweepStart(d: Disk, names: seq<Id>)
    ensures Swept(d, d, names, 0) && Listed(d, names, 0) == []
  {
  }

  lemma NextName(before: Disk, d: Disk, names: seq<Id>, n: nat)
    requires n < |names| && names == Names(before.metas.Keys) && Swept(before, d, names, n)
    ensures names[n] !in names[..n] && names[n] in d.metas && d.metas[names[n]] == before.metas[names[n]]
    ensures names[n] in Live(before) <==> names[n] in Live(d)
  {
    assert names[n] in names;
    NoRepeat(Earlier, names, n);
  }

  lemma SweepKeep(before: Disk, d: Disk, names: seq<Id>, n: nat)
    requires n < |names| && Swept(before, d, names, n) && names[n] in Live(before)
    ensures Swept(before, d, names, n + 1)
    ensures Listed(before, names, n + 1) == Listed(before, names, n) + [ItemOf(before, names[n])]
  {
    assert names[..n + 1] == names[..n] + [names[n]];
  }

  lemma SweepDrop(before: Disk, d: Disk, names: seq<Id>, n: nat)
    requires n < |names| && Swept(before, d, names, n) && names[n] !in Live(before) && names[n] !in names[..n]
    ensures Swept(before, Apply(d, RemoveMeta(names[n])), names, n + 1)
    ensures Listed(before, names, n + 1) == Listed(before, names, n)
  {
    assert names[..n + 1] == names[..n] + [names[n]];
  }

  lemma SweepEnd(before: Disk, d: Disk, names: seq<Id>)
    requires Sound(before) && Sound(d)
    requires names == Names(before.metas.Keys) && Swept(before, d, names, |names|)
    ensures d.metas.Keys == Live(d) == Live(before)
    ensures d == before.(metas := d.metas)
    ensures Listed(before, names, |names|) == Listing(before) == Listing(d) && Queue(d) == Queue(before)
  {
    SweptLive(before, d, names);
    ListingShape(before);
    hide Listed, Sorted, Swept, Sound;
    assert HoldsExactly(d, Listing(before));
    ListingIsUnique(d, Listing(before));
  }

  lemma SweptLive(before: Disk, d: Disk, names: seq<Id>)
    requires names == Names(before.metas.Keys) && Swept(before, d, names, |names|)
    ensures d.metas.Keys == Live(d) == Live(before) && d == before.(metas := d.metas)
    ensures forall id | id in Live(d) :: d.metas[id] == before.metas[id]
  {
    hide Listed;
    assert names[..|names|] == names;
  }

  // x at its place in the queue.
  function Enqueue(q: seq<Item>, x: Item): (r: seq<Item>)
    ensures |r| == |q| + 1
    ensures forall y :: y in r <==> y in q || y == x
  {
    if q == [] || Before(x, q[0]) then [x] + q
    else
      assert q == [q[0]] + q[1..];
      [q[0]] + Enqueue(q[1..], x)
  }

  lemma {:induction false} EnqueueOrdered(q: seq<Item>, x: Item)
    requires Sorted(Before, q)
    requires forall y | y in q :: y.id != x.id
    ensures Sorted(Before, Enqueue(q, x))
  {
    if q != [] && !Before(x, q[0]) {
      assert q[0] in q;
      EnqueueOrdered(q[1..], x);
      forall y | y in Enqueue(q[1..], x)
        ensures Before(q[0], y)
      {
        assert y == x || y in q[1..];
      }
    }
  }

  lemma {:induction false} EnqueueLatest(q: seq<Item>, x: Item)
    requires forall y | y in q :: y.at < x.at
    ensures Enqueue(q, x) == q + [x]
  {
    if q != [] {
      assert q[0] in q;
      EnqueueLatest(q[1..], x);
      assert q + [x] == [q[0]] + (q[1..] + [x]);
    }
  }

  function OtherThan(id: Id): Item -> bool {
    (x: Item) => x.id != id
  }

  function Without(q: seq<Item>, id: Id): seq<Item> {
    Where(q, OtherThan(id))
  }

  lemma {:induction false} WhereOrdered(q: seq<Item>, keep: Item -> bool)
    requires Sorted(Before, q)
    ensures Sorted(Before, Where(q, keep))
  {
    if q != [] {
      var m := |q| - 1;
      assert q == q[..m] + [q[m]];
      WhereOrdered(q[..m], keep);
      forall x | x in Where(q[..m], keep)
        ensures Before(x, q[m])
      {
        var k :| 0 <= k < m && q[k] == x;
      }
    }
  }

  lemma WithoutHead(q: seq<Item>)
    requires q != [] && Sorted(Before, q) && forall i, j | 0 <= i < j < |q| :: q[i].id != q[j].id
    ensures Without(q, q[0].id) == q[1..]
  {
    WhereOrdered(q, OtherThan(q[0].id));
    forall x
      ensures x in Without(q, q[0].id) <==> x in q[1..]
    {
      NotTheHead(Before, q, x);
    }
    OrderIsUnique(Before, Without(q, q[0].id), q[1..]);
  }

  // What each step does to the queue.
  function Stepped(q: seq<Item>, d: Disk, s: Step): seq<Item> {
    match s
    case CommitMeta(id) => if id in d.given then Enqueue(q, Item(id, d.given[id].at, |d.given[id].bytes|)) else q
    case RemovePayload(id) => Without(q, id)
    case _ => q
  }

  lemma QueueStep(d: Disk, s: Step)
    requires Sound(d) && Enabled(d, s) && Sound(Apply(d, s))
    ensures Queue(Apply(d, s)) == Stepped(Queue(d), d, s)
  {
    hide Queue, Sorted, Where, Enqueue, Before;
    OneItemPerStep(d, s);
    QueueShape(d);
    if s.CommitMeta? {
      EnqueueOrdered(Queue(d), Item(s.id, d.given[s.id].at, |d.given[s.id].bytes|));
    } else if s.RemovePayload? {
      WhereOrdered(Queue(d), OtherThan(s.id));
    }
    QueueIsUnique(Apply(d, s), Stepped(Queue(d), d, s));
  }

  function Total(q: seq<Item>): nat {
    if q == [] then 0 else q[0].size + Total(q[1..])
  }

  function Ids(q: seq<Item>): set<Id> {
    if q == [] then {} else {q[0].id} + Ids(q[1..])
  }

  predicate OwnIds(q: seq<Item>) {
    q != [] ==> q[0].id !in Ids(q[1..]) && OwnIds(q[1..])
  }

  lemma {:induction false} InIds(q: seq<Item>, id: Id)
    ensures id in Ids(q) <==> exists x :: x in q && x.id == id
  {
    if q != [] {
      InIds(q[1..], id);
      assert q == [q[0]] + q[1..];
    }
  }

  lemma {:induction false} OrderedIds(d: Disk, q: seq<Item>)
    requires Sound(d) && Sorted(Before, q) && forall x | x in q :: x.id in Live(d) && x == ItemOf(d, x.id)
    ensures OwnIds(q)
  {
    if q != [] {
      assert forall x | x in q[1..] :: x in q;
      OrderedIds(d, q[1..]);
      InIds(q[1..], q[0].id);
      forall x | x in q[1..]
        ensures x.id != q[0].id
      {
        var k :| 0 <= k < |q| - 1 && q[1..][k] == x;
        assert Before(q[0], q[k + 1]) && q[0] in q;
      }
    }
  }

  // The files hold the payloads of the items.
  predicate HaveItems(files: map<Id, seq<Byte>>, q: seq<Item>) {
    q != [] ==> q[0].id in files && q[0].size == |files[q[0].id]| && HaveItems(files, q[1..])
  }

  lemma {:induction false} HaveOthers(files: map<Id, seq<Byte>>, q: seq<Item>, id: Id)
    requires HaveItems(files, q) && id !in Ids(q)
    ensures HaveItems(files - {id}, q)
  {
    if q != [] {
      HaveOthers(files, q[1..], id);
    }
  }

  lemma {:induction false} HaveAll(files: map<Id, seq<Byte>>, q: seq<Item>)
    requires forall x | x in q :: x.id in files && x.size == |files[x.id]|
    ensures HaveItems(files, q)
  {
    if q != [] {
      assert q[0] in q && forall x | x in q[1..] :: x in q;
      HaveAll(files, q[1..]);
    }
  }

  lemma {:induction false} ItemBytes(q: seq<Item>, files: map<Id, seq<Byte>>)
    requires OwnIds(q) && HaveItems(files, q)
    ensures Bytes(files) == Total(q) + Bytes(files - Ids(q))
  {
    hide Bytes;
    if q == [] {
      assert files - {} == files;
    } else {
      BytesWithout(files, q[0].id);
      HaveOthers(files, q[1..], q[0].id);
      ItemBytes(q[1..], files - {q[0].id});
      assert files - {q[0].id} - Ids(q[1..]) == files - Ids(q);
    }
  }

  lemma QueueIds(d: Disk)
    requires Sound(d)
    ensures Ids(Queue(d)) == Live(d)
  {
    QueueShape(d);
    hide Queue, Sorted, Ids;
    forall id
      ensures id in Ids(Queue(d)) <==> id in Live(d)
    {
      InIds(Queue(d), id);
      if id in Live(d) {
        assert ItemOf(d, id) in Queue(d);
      }
    }
  }

  // The payloads on the disk are those of the queue, which the cap is about, and those without metadata,
  // which it is not about.
  lemma PayloadBytes(d: Disk)
    requires Sound(d)
    ensures Bytes(d.payloads) == Total(Queue(d)) + Bytes(d.payloads - Live(d))
  {
    QueueShape(d);
    OrderedIds(d, Queue(d));
    QueueIds(d);
    hide Queue, Sorted, OwnIds, Bytes, Ids, HaveItems;
    HaveAll(d.payloads, Queue(d));
    ItemBytes(Queue(d), d.payloads);
  }

  lemma {:induction false} TotalAppend(a: seq<Item>, b: seq<Item>)
    ensures Total(a + b) == Total(a) + Total(b)
  {
    if a == [] {
      assert a + b == b;
    } else {
      assert (a + b)[1..] == a[1..] + b;
      TotalAppend(a[1..], b);
    }
  }

  lemma {:induction false} TotalInserted(le: (Item, Item) -> bool, x: Item, q: seq<Item>)
    ensures Total(Insert(le, x, q)) == x.size + Total(q)
  {
    if q != [] && !le(x, q[0]) {
      TotalInserted(le, x, q[1..]);
    }
  }

  lemma {:induction false} TotalSorted(le: (Item, Item) -> bool, q: seq<Item>)
    ensures Total(Sort(le, q)) == Total(q)
  {
    if q != [] {
      TotalSorted(le, q[1..]);
      TotalInserted(le, q[0], Sort(le, q[1..]));
    }
  }

  predicate Expired(ttl: int, now: real, x: Item) {
    now - x.at > ttl as real
  }

  function Kept(ttl: int, now: real): Item -> bool {
    (x: Item) => !Expired(ttl, now, x)
  }

  function Unexpired(q: seq<Item>, ttl: int, now: real): seq<Item> {
    Where(q, Kept(ttl, now))
  }

  // Drops the oldest until the rest fits.
  function Fit(q: seq<Item>, maxBytes: int): seq<Item> {
    if q == [] || Total(q) <= maxBytes then q else Fit(q[1..], maxBytes)
  }

  function Pruned(q: seq<Item>, maxBytes: int, ttl: int, now: real): seq<Item> {
    Fit(Unexpired(q, ttl, now), maxBytes)
  }

  // k items are dropped and no fewer would do, unless nothing is left.
  lemma {:induction false} FitIsLongestSuffix(q: seq<Item>, maxBytes: int) returns (k: nat)
    ensures k <= |q| && Fit(q, maxBytes) == q[k..]
    ensures k < |q| ==> Total(q[k..]) <= maxBytes
    ensures forall j | 0 <= j < k :: Total(q[j..]) > maxBytes
  {
    k := 0;
    if q != [] && Total(q) > maxBytes {
      var more := FitIsLongestSuffix(q[1..], maxBytes);
      k := more + 1;
      assert q[1..][more..] == q[k..];
      forall j | 0 <= j < k
        ensures Total(q[j..]) > maxBytes
      {
        if j == 0 {
          assert q[0..] == q;
        } else {
          assert q[1..][j - 1..] == q[j..];
        }
      }
    }
  }

  // In a queue the expired items are at its head, so what is unexpired is again a suffix.
  lemma {:induction false} UnexpiredIsSuffix(q: seq<Item>, ttl: int, now: real) returns (k: nat)
    requires Sorted(Before, q)
    ensures k <= |q| && Unexpired(q, ttl, now) == q[k..]
    ensures forall i | 0 <= i < |q| :: Expired(ttl, now, q[i]) <==> i < k
  {
    if q == [] {
      k := 0;
    } else {
      hide Unexpired, Expired;
      var m := |q| - 1;
      k := UnexpiredIsSuffix(q[..m], ttl, now);
      UnexpiredLast(q, ttl, now);
      assert forall i | 0 <= i < m :: q[..m][i] == q[i];
      if Expired(ttl, now, q[m]) {
        EarlierExpire(q, ttl, now);
        NoneLeft(q, ttl, now);
        k := |q|;
      } else {
        SuffixLast(q, k);
      }
    }
  }

  lemma {:induction false} NoneLeft(q: seq<Item>, ttl: int, now: real)
    requires forall i | 0 <= i < |q| :: Expired(ttl, now, q[i])
    ensures Unexpired(q, ttl, now) == []
  {
    if q != [] {
      NoneLeft(q[..|q| - 1], ttl, now);
      UnexpiredLast(q, ttl, now);
    }
  }

  lemma SuffixLast(q: seq<Item>, k: nat)
    requires k < |q|
    ensures q[..|q| - 1][k..] + [q[|q| - 1]] == q[k..]
  {
  }

  lemma UnexpiredLast(q: seq<Item>, ttl: int, now: real)
    requires q != []
    ensures var m := |q| - 1;
      Unexpired(q, ttl, now) == Unexpired(q[..m], ttl, now) + if Expired(ttl, now, q[m]) then [] else [q[m]]
  {
  }

  lemma EarlierExpire(q: seq<Item>, ttl: int, now: real)
    requires Sorted(Before, q) && q != [] && Expired(ttl, now, q[|q| - 1])
    ensures forall i | 0 <= i < |q| :: Expired(ttl, now, q[i])
  {
    forall i | 0 <= i < |q| - 1
      ensures Expired(ttl, now, q[i])
    {
      assert Before(q[i], q[|q| - 1]);
    }
  }

  // The survivors of a prune are the longest suffix of the queue without an expired item and within
  // the cap.
  lemma PrunedIsLongestSuffix(q: seq<Item>, maxBytes: int, ttl: int, now: real) returns (k: nat)
    requires Sorted(Before, q)
    ensures k <= |q| && Pruned(q, maxBytes, ttl, now) == q[k..]
    ensures k < |q| ==> Total(q[k..]) <= maxBytes && forall i | k <= i < |q| :: now - q[i].at <= ttl as real
    ensures forall j | 0 <= j < k :: Total(q[j..]) > maxBytes || now - q[j].at > ttl as real
  {
    var a := UnexpiredIsSuffix(q, ttl, now);
    var b := FitIsLongestSuffix(q[a..], maxBytes);
    k := a + b;
    assert q[a..][b..] == q[k..];
    forall j | a <= j < k
      ensures Total(q[j..]) > maxBytes
    {
      assert q[a..][j - a..] == q[j..];
    }
  }

  // What a prune at some time leaves of a queue: exactly the items whose age is at most ttl seconds and which
  // fit, together with all items behind them, into the cap.
  ghost predicate Survivors(q: seq<Item>, maxBytes: int, ttl: int, now: real, left: seq<Item>) {
    && (forall x | x in left :: x in q && now - x.at <= ttl as real)
    && (forall i | 0 <= i < |q| ::
          q[i] in left <==> now - q[i].at <= ttl as real && Sum(SizesFrom(q, i)) <= maxBytes)
  }

  // The sizes of the items from the i-th on.
  function SizesFrom(q: seq<Item>, i: nat): seq<int>
    requires i <= |q|
  {
    seq(|q| - i, k requires 0 <= k < |q| - i => q[i + k].size)
  }

  lemma {:induction false} TotalIsSum(q: seq<Item>)
    ensures Total(q) == Sum(SizesFrom(q, 0))
  {
    if q != [] {
      var m := |q| - 1;
      TotalIsSum(q[..m]);
      assert q == q[..m] + [q[m]] && Total([q[m]]) == q[m].size;
      TotalAppend(q[..m], [q[m]]);
      assert SizesFrom(q, 0)[..m] == SizesFrom(q[..m], 0);
    }
  }

  lemma TotalFrom(q: seq<Item>, i: nat)
    requires i <= |q|
    ensures Total(q[i..]) == Sum(SizesFrom(q, i))
  {
    TotalIsSum(q[i..]);
    assert SizesFrom(q[i..], 0) == SizesFrom(q, i);
  }

  lemma PrunedSurvivors(q: seq<Item>, maxBytes: int, ttl: int, now: real)
    requires Sorted(Before, q)
    ensures Survivors(q, maxBytes, ttl, now, Pruned(q, maxBytes, ttl, now))
  {
    var k := PrunedIsLongestSuffix(q, maxBytes, ttl, now);
    hide Pruned, Sum, SizesFrom, Total, Sorted;
    forall i | 0 <= i < |q|
      ensures q[i] in q[k..] <==> now - q[i].at <= ttl as real && Sum(SizesFrom(q, i)) <= maxBytes
    {
      Survives(q, k, i, maxBytes, ttl, now);
    }
    forall x | x in q[k..]
      ensures x in q && now - x.at <= ttl as real
    {
      var i :| 0 <= i < |q| - k && q[k..][i] == x;
      assert q[k + i] == x;
    }
  }

  lemma Survives(q: seq<Item>, k: nat, i: nat, maxBytes: int, ttl: int, now: real)
    requires Sorted(Before, q) && i < |q| && k <= |q|
    requires k < |q| ==> Total(q[k..]) <= maxBytes && forall j | k <= j < |q| :: now - q[j].at <= ttl as real
    requires forall j | 0 <= j < k :: Total(q[j..]) > maxBytes || now - q[j].at > ttl as real
    ensures q[i] in q[k..] <==> now - q[i].at <= ttl as real && Sum(SizesFrom(q, i)) <= maxBytes
  {
    TotalFrom(q, i);
    hide Sum, SizesFrom;
    if i < k {
      NoLaterOccurrence(q, k, i);
    } else {
      hide Sorted;
      assert q[k..][i - k] == q[i];
      assert q[k..] == q[k..i] + q[i..];
      TotalAppend(q[k..i], q[i..]);
    }
  }

  lemma NoLaterOccurrence(q: seq<Item>, k: nat, i: nat)
    requires Sorted(Before, q) && i < k <= |q|
    ensures q[i] !in q[k..]
  {
    forall j | k <= j < |q|
      ensures q[j] != q[i]
    {
      assert Before(q[i], q[j]);
    }
  }

  // After a prune the cap holds.
  lemma PrunedWithinCap(q: seq<Item>, maxBytes: int, ttl: int, now: real)
    requires maxBytes >= 0
    ensures Total(Pruned(q, maxBytes, ttl, now)) <= maxBytes
  {
    var _ := FitIsLongestSuffix(Unexpired(q, ttl, now), maxBytes);
  }

  // An item newer than all others is still there after a prune exactly if it is within the cap by
  // itself and has not expired.
  lemma NewestSurvives(q: seq<Item>, x: Item, maxBytes: int, ttl: int, now: real)
    requires Sorted(Before, q + [x])
    ensures x in Pruned(q + [x], maxBytes, ttl, now) <==> x.size <= maxBytes && now - x.at <= ttl as real
  {
    var n := |q|;
    var k := PrunedIsLongestSuffix(q + [x], maxBytes, ttl, now);
    assert (q + [x])[n] == x && (q + [x])[n..] == [x] && Total([x]) == x.size;
    if k <= n {
      assert (q + [x])[k..] == q[k..] + [x];
      TotalAppend(q[k..], [x]);
      assert x in q[k..] + [x];
    }
  }

  lemma JustAdded(q: seq<Item>, x: Item, maxBytes: int, ttl: int, now: real)
    requires Sorted(Before, q) && forall y | y in q :: y.at < x.at
    ensures x in Pruned(Enqueue(q, x), maxBytes, ttl, now) <==> x.size <= maxBytes && now - x.at <= ttl as real
  {
    EnqueueLatest(q, x);
    NewestSurvives(q, x, maxBytes, ttl, now);
  }
}
