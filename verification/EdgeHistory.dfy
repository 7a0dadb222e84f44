// Whole runs of the buffer's operations (retikon_core/edge/buffer.py): what becomes of every item ever
// added.

module EdgeHistory {
  import opened EdgeBuffers
  import opened EdgeDisk
  import opened EdgeQueue
  import opened Sequences
  import opened StableSort

  datatype Op =
    | Add(item: Item, now: real)
    | Prune(now: real)
    | Replay(taken: nat)    // how many items the sender would take before it fails

  datatype Fate = Delivered | Dropped

  datatype History = History(queue: seq<Item>, added: seq<Item>, delivered: seq<Item>, dropped: seq<Item>)

  predicate ByTime(a: Item, b: Item) {
    a.at < b.at
  }

  // The queue shrinks from all to rest, and what is not in rest has been dropped.
  function Shrunk(h: History, all: seq<Item>, rest: seq<Item>): History {
    if |rest| <= |all| then h.(queue := rest, dropped := h.dropped + all[..|all| - |rest|]) else h
  }

  function Delivering(h: History, taken: nat): (n: nat)
    ensures n <= |h.queue|
  {
    if taken <= |h.queue| then taken else |h.queue|
  }

  function Next(h: History, op: Op, maxBytes: int, ttl: int): History {
    match op
    case Add(item, now) =>
      var all := Enqueue(h.queue, item);
      Shrunk(h.(added := h.added + [item]), all, Pruned(all, maxBytes, ttl, now))
    case Prune(now) => Shrunk(h, h.queue, Pruned(h.queue, maxBytes, ttl, now))
    case Replay(taken) =>
      var n := Delivering(h, taken);
      h.(queue := h.queue[n..], delivered := h.delivered + h.queue[..n])
  }

  function After(ops: seq<Op>, maxBytes: int, ttl: int): History {
    if ops == [] then History([], [], [], [])
    else Next(After(ops[..|ops| - 1], maxBytes, ttl), ops[|ops| - 1], maxBytes, ttl)
  }

  // The items of s whose fate is f, in their order.
  function Chosen(s: seq<Item>, fates: seq<Fate>, f: Fate): seq<Item>
    requires |fates| <= |s|
  {
    if fates == [] then []
    else
      var m := |fates| - 1;
      Chosen(s, fates[..m], f) + if fates[m] == f then [s[m]] else []
  }

  // Every item added has one fate or is still buffered; deliveries and drops follow the order of arrival.
  ghost predicate Accounted(h: History, fates: seq<Fate>) {
    && Sorted(ByTime, h.added)
    && |fates| + |h.queue| == |h.added|
    && h.queue == h.added[|fates|..]
    && h.delivered == Chosen(h.added, fates, Delivered)
    && h.dropped == Chosen(h.added, fates, Dropped)
  }

  function Fates(n: nat, f: Fate): seq<Fate> {
    seq(n, _ => f)
  }

  lemma {:induction false} ChosenMore(s: seq<Item>, fates: seq<Fate>, n: nat, f: Fate, g: Fate)
    requires |fates| + n <= |s|
    ensures Chosen(s, fates + Fates(n, f), g) ==
      Chosen(s, fates, g) + if f == g then s[|fates|..|fates| + n] else []
  {
    var more := fates + Fates(n, f);
    if n == 0 {
      assert more == fates;
    } else {
      assert more[..|more| - 1] == fates + Fates(n - 1, f);
      ChosenMore(s, fates, n - 1, f, g);
    }
  }

  lemma {:induction false} ChosenPrefix(s: seq<Item>, x: Item, fates: seq<Fate>, f: Fate)
    requires |fates| <= |s|
    ensures Chosen(s + [x], fates, f) == Chosen(s, fates, f)
  {
    if fates != [] {
      ChosenPrefix(s, x, fates[..|fates| - 1], f);
    }
  }

  // The first n buffered items meet their fate.
  lemma Settle(h: History, fates: seq<Fate>, n: nat, f: Fate, next: History)
    requires Accounted(h, fates) && n <= |h.queue|
    requires next.added == h.added && next.queue == h.queue[n..]
    requires next.delivered == h.delivered + if f == Delivered then h.queue[..n] else []
    requires next.dropped == h.dropped + if f == Dropped then h.queue[..n] else []
    ensures Accounted(next, fates + Fates(n, f))
  {
    ChosenMore(h.added, fates, n, f, Delivered);
    ChosenMore(h.added, fates, n, f, Dropped);
    assert h.added[|fates|..][..n] == h.added[|fates|..|fates| + n];
    assert h.added[|fates|..][n..] == h.added[|fates| + n..];
  }

  lemma QueueOrdered(h: History, fates: seq<Fate>)
    requires Accounted(h, fates)
    ensures Sorted(Before, h.queue)
  {
    forall i, j | 0 <= i < j < |h.queue|
      ensures Before(h.queue[i], h.queue[j])
    {
      assert ByTime(h.added[|fates| + i], h.added[|fates| + j]);
    }
  }

  lemma PruneAccounted(h: History, fates: seq<Fate>, maxBytes: int, ttl: int, now: real) returns (more: seq<Fate>)
    requires Accounted(h, fates)
    ensures |Pruned(h.queue, maxBytes, ttl, now)| <= |h.queue|
    ensures Accounted(Shrunk(h, h.queue, Pruned(h.queue, maxBytes, ttl, now)), more)
  {
    QueueOrdered(h, fates);
    var k := PrunedIsLongestSuffix(h.queue, maxBytes, ttl, now);
    more := fates + Fates(k, Dropped);
    Settle(h, fates, k, Dropped, Shrunk(h, h.queue, Pruned(h.queue, maxBytes, ttl, now)));
  }

  lemma AddAccounted(h: History, fates: seq<Fate>, x: Item)
    requires Accounted(h, fates) && Sorted(ByTime, h.added + [x])
    ensures Enqueue(h.queue, x) == h.queue + [x]
    ensures Accounted(h.(added := h.added + [x], queue := h.queue + [x]), fates)
  {
    forall y | y in h.queue
      ensures y.at < x.at
    {
      var k :| 0 <= k < |h.queue| && h.queue[k] == y;
      assert ByTime((h.added + [x])[|fates| + k], (h.added + [x])[|h.added|]);
    }
    EnqueueLatest(h.queue, x);
    ChosenPrefix(h.added, x, fates, Delivered);
    ChosenPrefix(h.added, x, fates, Dropped);
  }

  lemma {:induction false} AddedGrows(ops: seq<Op>, k: nat, maxBytes: int, ttl: int)
    requires k <= |ops|
    ensures After(ops[..k], maxBytes, ttl).added <= After(ops, maxBytes, ttl).added
  {
    if k == |ops| {
      assert ops[..k] == ops;
    } else {
      assert ops[..|ops| - 1][..k] == ops[..k];
      AddedGrows(ops[..|ops| - 1], k, maxBytes, ttl);
    }
  }

  // Over any run with rising creation times: the buffer is a suffix of all that was ever added, what was
  // delivered came in the order of arrival, and each item is delivered, dropped or still buffered, and
  // only one of these.
  lemma {:induction false} FirstInFirstOut(ops: seq<Op>, maxBytes: int, ttl: int) returns (fates: seq<Fate>)
    requires Sorted(ByTime, After(ops, maxBytes, ttl).added)
    ensures Accounted(After(ops, maxBytes, ttl), fates)
  {
    fates := [];
    if ops != [] {
      var op, h := ops[|ops| - 1], After(ops[..|ops| - 1], maxBytes, ttl);
      AddedGrows(ops, |ops| - 1, maxBytes, ttl);
      assert h.added == After(ops, maxBytes, ttl).added[..|h.added|];
      fates := FirstInFirstOut(ops[..|ops| - 1], maxBytes, ttl);
      match op
      case Add(x, now) =>
        AddAccounted(h, fates, x);
        fates := PruneAccounted(h.(added := h.added + [x], queue := h.queue + [x]), fates, maxBytes, ttl, now);
      case Prune(now) =>
        fates := PruneAccounted(h, fates, maxBytes, ttl, now);
      case Replay(taken) =>
        Settle(h, fates, Delivering(h, taken), Delivered, Next(h, op, maxBytes, ttl));
        fates := fates + Fates(Delivering(h, taken), Delivered);
    }
  }

  function Count(s: seq<Item>, x: Item): nat {
    multiset(s)[x]
  }

  lemma CountLast(s: seq<Item>, y: Item, x: Item)
    ensures Count(s + [y], x) == Count(s, x) + if y == x then 1 else 0
  {
  }

  lemma CountTake(s: seq<Item>, n: nat, x: Item)
    requires 0 < n <= |s|
    ensures Count(s[..n], x) == Count(s[..n - 1], x) + if s[n - 1] == x then 1 else 0
  {
    assert s[..n] == s[..n - 1] + [s[n - 1]];
    CountLast(s[..n - 1], s[n - 1], x);
  }

  lemma ChosenLast(s: seq<Item>, fates: seq<Fate>, f: Fate, x: Item)
    requires 0 < |fates| <= |s|
    ensures var m := |fates| - 1;
      Count(Chosen(s, fates, f), x) == Count(Chosen(s, fates[..m], f), x) + if fates[m] == f && s[m] == x then 1 else 0
  {
    var m := |fates| - 1;
    var before := Chosen(s, fates[..m], f);
    CountLast(before, s[m], x);
    if fates[m] != f {
      assert Chosen(s, fates, f) == before;
    }
  }

  lemma {:induction false} ChosenPartition(s: seq<Item>, fates: seq<Fate>, n: nat, x: Item)
    requires n == |fates| <= |s|
    ensures Count(s[..n], x) == Count(Chosen(s, fates, Delivered), x) + Count(Chosen(s, fates, Dropped), x)
    decreases n
  {
    if n > 0 {
      hide Chosen, Count;
      ChosenPartition(s, fates[..n - 1], n - 1, x);
      CountTake(s, n, x);
      ChosenLast(s, fates, Delivered, x);
      ChosenLast(s, fates, Dropped, x);
    }
  }

  lemma {:induction false} ChosenOrdered(s: seq<Item>, fates: seq<Fate>, f: Fate)
    requires |fates| <= |s| && Sorted(ByTime, s)
    ensures Sorted(ByTime, Chosen(s, fates, f))
    ensures forall x | x in Chosen(s, fates, f) :: exists k :: 0 <= k < |fates| && s[k] == x
  {
    if fates != [] {
      var m := |fates| - 1;
      ChosenOrdered(s, fates[..m], f);
      forall x | x in Chosen(s, fates[..m], f)
        ensures ByTime(x, s[m])
      {
        var k :| 0 <= k < m && s[k] == x;
      }
    }
  }

  // Nothing is lost or made twice: what was added is what was delivered, dropped or is buffered, and
  // the deliveries of all replays together are in order without repeats.
  lemma Conservation(ops: seq<Op>, maxBytes: int, ttl: int)
    requires Sorted(ByTime, After(ops, maxBytes, ttl).added)
    ensures var h := After(ops, maxBytes, ttl);
      && multiset(h.added) == multiset(h.delivered) + multiset(h.dropped) + multiset(h.queue)
      && Sorted(ByTime, h.delivered) && Sorted(ByTime, h.dropped) && Sorted(ByTime, h.queue)
  {
    var h := After(ops, maxBytes, ttl);
    var fates := FirstInFirstOut(ops, maxBytes, ttl);
    ChosenOrdered(h.added, fates, Delivered);
    ChosenOrdered(h.added, fates, Dropped);
    Parts(h, fates);
    forall i, j | 0 <= i < j < |h.queue|
      ensures ByTime(h.queue[i], h.queue[j])
    {
      assert h.queue[i] == h.added[|fates| + i] && h.queue[j] == h.added[|fates| + j];
    }
  }

  lemma Parts(h: History, fates: seq<Fate>)
    requires Accounted(h, fates)
    ensures multiset(h.added) == multiset(h.delivered) + multiset(h.dropped) + multiset(h.queue)
  {
    var n := |fates|;
    assert h.added == h.added[..n] + h.added[n..];
    forall x
      ensures multiset(h.added[..n])[x] == multiset(h.delivered)[x] + multiset(h.dropped)[x]
    {
      ChosenPartition(h.added, fates, n, x);
      assert Count(h.added[..n], x) == multiset(h.added[..n])[x];
    }
    SumOfParts(multiset(h.added[..n]), multiset(h.delivered), multiset(h.dropped));
  }

  lemma SumOfParts(a: multiset<Item>, b: multiset<Item>, c: multiset<Item>)
    requires forall x :: a[x] == b[x] + c[x]
    ensures a == b + c
  {
  }

  // Between any two operations the buffer is within its cap, whatever the times of the items are.
  lemma {:induction false} AlwaysWithinCap(ops: seq<Op>, maxBytes: int, ttl: int)
    requires maxBytes >= 0
    ensures Total(After(ops, maxBytes, ttl).queue) <= maxBytes
  {
    if ops != [] {
      var op, h := ops[|ops| - 1], After(ops[..|ops| - 1], maxBytes, ttl);
      AlwaysWithinCap(ops[..|ops| - 1], maxBytes, ttl);
      match op
      case Add(x, now) =>
        PrunedIsNoLonger(Enqueue(h.queue, x), maxBytes, ttl, now);
        PrunedWithinCap(Enqueue(h.queue, x), maxBytes, ttl, now);
      case Prune(now) =>
        PrunedIsNoLonger(h.queue, maxBytes, ttl, now);
        PrunedWithinCap(h.queue, maxBytes, ttl, now);
      case Replay(taken) =>
        var n := Delivering(h, taken);
        TotalAppend(h.queue[..n], h.queue[n..]);
        assert h.queue == h.queue[..n] + h.queue[n..];
    }
  }

  lemma PrunedIsNoLonger(q: seq<Item>, maxBytes: int, ttl: int, now: real)
    ensures |Pruned(q, maxBytes, ttl, now)| <= |q|
  {
    WhereShorter(q, Kept(ttl, now));
    var _ := FitIsLongestSuffix(Unexpired(q, ttl, now), maxBytes);
  }

  // ---------------------------------------------------------------- the buffer itself

  // The items added by the first n operations.
  function Added(ops: seq<Op>, n: nat): set<Id>
    requires n <= |ops|
  {
    if n == 0 then {} else Added(ops, n - 1) + if ops[n - 1].Add? then {ops[n - 1].item.id} else {}
  }

  // Every addition has a name of its own.
  ghost predicate FreshNames(ops: seq<Op>) {
    forall n | 0 <= n < |ops| && ops[n].Add? :: ops[n].item.id !in Added(ops, n)
  }

  // The sender that takes so many items.
  function Taking(taken: nat): Sender {
    (k: nat, item: Item, bytes: seq<Byte>) => k < taken
  }

  method PerformOne(buffer: EdgeBuffer, op: Op, payload: Item -> seq<Byte>, ghost h: History)
    requires buffer.Valid() && Queue(buffer.disk) == h.queue
    requires op.Add? ==>
      && |payload(op.item)| == op.item.size
      && op.item.id !in buffer.disk.given && op.item.id !in buffer.disk.metas
    modifies buffer`disk, buffer`steps
    ensures buffer.Valid()
    ensures Queue(buffer.disk) == Next(h, op, buffer.maxBytes, buffer.ttlSeconds).queue
    ensures buffer.disk.given.Keys == old(buffer.disk.given.Keys) + if op.Add? then {op.item.id} else {}
  {
    hide Queue, Enqueue, Pruned;
    match op
    case Add(item, now) =>
      PrunedIsNoLonger(Enqueue(h.queue, item), buffer.maxBytes, buffer.ttlSeconds, now);
      var _ := buffer.AddBytes(payload(item), item.id, item.at, now);
    case Prune(now) =>
      PrunedIsNoLonger(h.queue, buffer.maxBytes, buffer.ttlSeconds, now);
      buffer.Prune(now);
    case Replay(taken) =>
      ItemsAreGiven(buffer.disk);
      var success, failed := buffer.Replay(Taking(taken));
      TakesAsMany(h, taken, success, buffer.disk.given);
  }

  lemma ItemsAreGiven(d: Disk)
    requires Sound(d)
    ensures forall k | 0 <= k < |Queue(d)| :: Queue(d)[k].id in d.given
  {
    QueueShape(d);
    forall k | 0 <= k < |Queue(d)|
      ensures Queue(d)[k].id in d.given
    {
      assert Queue(d)[k] in Queue(d);
    }
  }

  lemma TakesAsMany(h: History, taken: nat, success: nat, given: map<Id, Given>)
    requires success <= |h.queue|
    requires success < |h.queue| ==> h.queue[success].id in given
    requires forall k | 0 <= k < success :: Takes(Taking(taken), k, h.queue[k], given)
    requires success < |h.queue| ==> !Takes(Taking(taken), success, h.queue[success], given)
    ensures success == Delivering(h, taken)
  {
    assert success > 0 ==> Takes(Taking(taken), success - 1, h.queue[success - 1], given);
  }

  // Runs the operations on a buffer that starts on an empty disk: its queue is the one that After says,
  // through every file operation that the methods are made of.
  method Perform(buffer: EdgeBuffer, ops: seq<Op>, payload: Item -> seq<Byte>)
    requires buffer.Valid() && buffer.start == EmptyDisk() && buffer.steps == []
    requires FreshNames(ops)
    requires forall op | op in ops && op.Add? :: |payload(op.item)| == op.item.size
    modifies buffer`disk, buffer`steps
    ensures buffer.Valid()
    ensures Queue(buffer.disk) == After(ops, buffer.maxBytes, buffer.ttlSeconds).queue
  {
    EmptyQueue();
    for n := 0 to |ops|
      invariant buffer.Valid() && buffer.disk.given.Keys == Added(ops, n)
      invariant Queue(buffer.disk) == After(ops[..n], buffer.maxBytes, buffer.ttlSeconds).queue
    {
      hide Queue, Next;
      TidyAfter(buffer.start, buffer.steps);
      assert ops[..n + 1][..n] == ops[..n];
      assert ops[n] in ops;
      PerformOne(buffer, ops[n], payload, After(ops[..n], buffer.maxBytes, buffer.ttlSeconds));
    }
    assert ops[..|ops|] == ops;
  }

  lemma EmptyQueue()
    ensures Queue(EmptyDisk()) == []
  {
  }
}
