// The store-and-forward buffer (retikon_core/edge/buffer.py). Every file operation goes through Do,
// so the steps taken are a run of EdgeDisk and each point between two of them is a place to stop.

module EdgeBuffers {
  import opened EdgeDisk
  import opened EdgeQueue
  import opened Sequences
  import opened StableSort

  // What the caller of replay does with an item: the k-th call, with the item and its bytes. False
  // also stands for an exception.
  type Sender = (nat, Item, seq<Byte>) -> bool

  datatype Ages = NoAges | Ages(oldest: real, newest: real)

  datatype Stats = Stats(count: nat, totalBytes: nat, ages: Ages)

  class EdgeBuffer {
    const maxBytes: int
    const ttlSeconds: int
    var disk: Disk
    ghost const start: Disk
    ghost var steps: seq<Step>

    ghost predicate Valid()
      reads this
    {
      && Sound(start) && Run(start, steps)
      && disk == After(start, steps) && Sound(disk)
    }

    // A process opens whatever an earlier one left behind.
    constructor (disk: Disk, maxBytes: int, ttlSeconds: int)
      requires Sound(disk)
      ensures Valid() && this.disk == disk && steps == []
      ensures this.maxBytes == maxBytes && this.ttlSeconds == ttlSeconds
    {
      this.maxBytes, this.ttlSeconds, this.disk := maxBytes, ttlSeconds, disk;
      start, steps := disk, [];
    }

    method Do(s: Step)
      requires Valid() && Enabled(disk, s)
      modifies `disk, `steps
      ensures Valid() && disk == Apply(old(disk), s) && steps == old(steps) + [s]
      ensures Queue(disk) == Stepped(old(Queue(disk)), old(disk), s)
    {
      OneItemPerStep(disk, s);
      QueueStep(disk, s);
      disk := Apply(disk, s);
      steps := steps + [s];
      assert steps[..|steps| - 1] == old(steps);
    }

    // Writes the payload under a temporary name and renames it.
    method AtomicWriteBytes(id: Id, given: Given)
      requires Valid() && id !in disk.given && id !in disk.metas
      modifies `disk, `steps
      ensures Valid() && old(steps) <= steps
      ensures id in disk.payloads && id !in disk.metas && disk.given == old(disk.given)[id := given]
      ensures Queue(disk) == old(Queue(disk))
    {
      Do(OpenPayload(id, given));
      WritePayloadTmp(id, given.bytes);
      Do(CommitPayload(id));
    }

    method WritePayloadTmp(id: Id, bytes: seq<Byte>)
      requires Valid() && id in disk.payloadTmp && disk.payloadTmp[id] == []
      modifies `disk, `steps
      ensures Valid() && old(steps) <= steps
      ensures disk == old(disk).(payloadTmp := old(disk).payloadTmp[id := bytes])
      ensures Queue(disk) == old(Queue(disk))
    {
      hide Queue;
      var n := 0;
      while n < |bytes|
        invariant 0 <= n <= |bytes|
        invariant Valid() && old(steps) <= steps
        invariant disk == old(disk).(payloadTmp := old(disk).payloadTmp[id := bytes[..n]])
        invariant Queue(disk) == old(Queue(disk))
      {
        Do(AppendByte(id, bytes[n]));
        assert bytes[..n + 1] == bytes[..n] + [bytes[n]];
        n := n + 1;
      }
      assert bytes[..n] == bytes;
    }

    // Writes the metadata of a stored payload under a temporary name and renames it.
    method AtomicWriteJson(id: Id, meta: MetaFile)
      requires Valid() && id in disk.payloads && id !in disk.metas
      requires meta == Meta(id, disk.given[id].at, |disk.given[id].bytes|)
      modifies `disk, `steps
      ensures Valid() && old(steps) <= steps
      ensures disk.given == old(disk.given)
      ensures Queue(disk) == Enqueue(old(Queue(disk)), Item(id, meta.at, meta.size))
    {
      Do(OpenMeta(id));
      Do(FillMeta(id, meta));
      Do(CommitMeta(id));
    }

    method AddBytes(payload: seq<Byte>, id: Id, at: real, now: real) returns (item: Item)
      requires Valid() && id !in disk.given && id !in disk.metas
      modifies `disk, `steps
      ensures Valid() && old(steps) <= steps
      ensures item == Item(id, at, |payload|)
      ensures disk.given == old(disk.given)[id := Given(payload, at)]
      ensures Queue(disk) == Pruned(Enqueue(old(Queue(disk)), item), maxBytes, ttlSeconds, now)
      ensures Survivors(Enqueue(old(Queue(disk)), item), maxBytes, ttlSeconds, now, Queue(disk))
    {
      hide Survivors, Pruned, Queue;
      AtomicWriteBytes(id, Given(payload, at));
      AtomicWriteJson(id, Meta(id, at, |payload|));
      Prune(now);
      item := Item(id, at, |payload|);
    }

    // Looks at one name of a listing: its item, or nothing and the metadata is deleted.
    method LookAt(id: Id, ghost before: Disk, ghost names: seq<Id>, ghost n: nat) returns (found: seq<Item>)
      requires Valid() && n < |names| && id == names[n] && names == Names(before.metas.Keys)
      requires Swept(before, disk, names, n)
      modifies `disk, `steps
      ensures Valid() && old(steps) <= steps
      ensures Swept(before, disk, names, n + 1)
      ensures Listed(before, names, n + 1) == Listed(before, names, n) + found
    {
      hide Queue, Listing, Listed, Swept, Run, After;
      found := [];
      NextName(before, disk, names, n);
      match disk.metas[id]
      case Garbage =>
        SweepDrop(before, disk, names, n);
        Do(RemoveMeta(id));
      case Meta(item, at, size) =>
        if item !in disk.payloads {
          SweepDrop(before, disk, names, n);
          Do(RemoveMeta(id));
        } else {
          SweepKeep(before, disk, names, n);
          found := [Item(item, at, size)];
        }
    }

    // Lists the items by name, and deletes metadata that cannot be read or has no payload.
    method ListItems() returns (items: seq<Item>)
      requires Valid()
      modifies `disk, `steps
      ensures Valid() && old(steps) <= steps
      ensures items == Listing(disk) == Listing(old(disk))
      ensures disk.metas.Keys == Live(disk) == Live(old(disk))
      ensures disk == old(disk).(metas := disk.metas)
      ensures Queue(disk) == old(Queue(disk))
    {
      hide Queue, Listing, Listed, Swept, Run, After;
      items := [];
      var names := Names(disk.metas.Keys);
      SweepStart(disk, names);
      for n := 0 to |names|
        invariant Valid() && old(steps) <= steps
        invariant Swept(old(disk), disk, names, n)
        invariant items == Listed(old(disk), names, n)
      {
        var found := LookAt(names[n], old(disk), names, n);
        items := items + found;
      }
      SweepEnd(old(disk), disk, names);
    }

    // Deletes the payload, then the metadata, of an item that was just listed.
    method RemoveItem(item: Item)
      requires Valid() && item.id in Live(disk)
      modifies `disk, `steps
      ensures Valid() && old(steps) <= steps
      ensures disk.given == old(disk.given)
      ensures Queue(disk) == Without(old(Queue(disk)), item.id)
    {
      Do(RemovePayload(item.id));
      Do(RemoveMeta(item.id));
    }

    // The queue is old without those of the first n listed items that have expired.
    ghost predicate ExpiredGone(q: seq<Item>, items: seq<Item>, n: nat, now: real)
      requires n <= |items| && Valid()
      reads this
    {
      forall x :: x in Queue(disk) <==> x in q && !(x in items[..n] && Expired(ttlSeconds, now, x))
    }

    method RemoveExpired(items: seq<Item>, now: real)
      requires Valid() && items == Listing(disk)
      modifies `disk, `steps
      ensures Valid() && old(steps) <= steps
      ensures disk.given == old(disk.given)
      ensures Queue(disk) == Unexpired(old(Queue(disk)), ttlSeconds, now)
    {
      ghost var q := Queue(disk);
      hide Queue, Listing, Run, After;
      ListingShape(disk);
      QueueShape(disk);
      var n := 0;
      while n < |items|
        invariant 0 <= n <= |items|
        invariant Valid() && old(steps) <= steps && disk.given == old(disk.given)
        invariant ExpiredGone(q, items, n, now)
      {
        var item := items[n];
        assert items[..n + 1] == items[..n] + [item];
        if Expired(ttlSeconds, now, item) {
          assert item !in items[..n] by {
            NoRepeat(ByName, items, n);
          }
          QueueShape(disk);
          RemoveItem(item);
        }
        n := n + 1;
      }
      assert items[..|items|] == items;
      WhereOrdered(q, Kept(ttlSeconds, now));
      QueueShape(disk);
      OrderIsUnique(Before, Queue(disk), Unexpired(q, ttlSeconds, now));
    }

    // Deletes what has expired, then the oldest items until the rest is within the cap.
    method Prune(now: real)
      requires Valid()
      modifies `disk, `steps
      ensures Valid() && old(steps) <= steps
      ensures disk.given == old(disk.given)
      ensures Queue(disk) == Pruned(old(Queue(disk)), maxBytes, ttlSeconds, now)
      ensures Survivors(old(Queue(disk)), maxBytes, ttlSeconds, now, Queue(disk))
    {
      hide Run, After, Listing, Live, Survivors;
      QueueShape(disk);
      PrunedSurvivors(Queue(disk), maxBytes, ttlSeconds, now);
      var items := ListItems();
      if items == [] {
        return;
      }
      RemoveExpired(items, now);
      items := ListItems();
      TotalSorted(ByAge, items);
      if Total(items) > maxBytes {
        Evict(Sort(ByAge, items));
      }
    }

    // Deletes the oldest items until the rest is within the cap.
    method Evict(sorted: seq<Item>)
      requires Valid() && sorted == Queue(disk) && Total(sorted) > maxBytes
      modifies `disk, `steps
      ensures Valid() && old(steps) <= steps
      ensures disk.given == old(disk.given)
      ensures Queue(disk) == Fit(sorted, maxBytes)
    {
      var total: int := Total(sorted);
      var n := 0;
      while n < |sorted|
        invariant 0 <= n <= |sorted|
        invariant Valid() && old(steps) <= steps && disk.given == old(disk.given)
        invariant Queue(disk) == sorted[n..] && total == Total(sorted[n..])
        invariant total > maxBytes || n == |sorted|
        invariant Fit(sorted, maxBytes) == Fit(sorted[n..], maxBytes)
      {
        RemoveHead(sorted[n]);
        assert sorted[n..][1..] == sorted[n + 1..];
        total := total - sorted[n].size;
        n := n + 1;
        if total <= maxBytes {
          break;
        }
      }
    }

    method RemoveHead(item: Item)
      requires Valid() && Queue(disk) != [] && Queue(disk)[0] == item
      modifies `disk, `steps
      ensures Valid() && old(steps) <= steps
      ensures disk.given == old(disk.given)
      ensures Queue(disk) == old(Queue(disk))[1..]
    {
      ghost var q := Queue(disk);
      QueueShape(disk);
      assert item in q;
      DistinctIds(disk);
      WithoutHead(q);
      RemoveItem(item);
    }

    // Hands the items to the sender, oldest first, and deletes each that it takes; stops at the first
    // that it does not take.
    method Replay(sender: Sender) returns (success: nat, failed: nat)
      requires Valid()
      modifies `disk, `steps
      ensures Valid() && old(steps) <= steps
      ensures disk.given == old(disk.given)
      ensures success <= |old(Queue(disk))| && Queue(disk) == old(Queue(disk))[success..]
      ensures forall k | 0 <= k < success :: Takes(sender, k, old(Queue(disk))[k], disk.given)
      ensures success < |old(Queue(disk))| ==> !Takes(sender, success, old(Queue(disk))[success], disk.given)
      ensures failed == if success < |old(Queue(disk))| then 1 else 0
    {
      success, failed := 0, 0;
      var items := ListItems();
      ghost var q := Queue(disk);
      var sorted := Sort(ByAge, items);
      while success < |sorted|
        invariant 0 <= success <= |q|
        invariant Valid() && old(steps) <= steps && disk.given == old(disk.given)
        invariant Queue(disk) == q[success..]
        invariant forall k | 0 <= k < success :: Takes(sender, k, q[k], disk.given)
      {
        var item := sorted[success];
        QueueShape(disk);
        assert item in Queue(disk);
        var ok := sender(success, item, disk.payloads[item.id]);
        if !ok {
          failed := 1;
          return;
        }
        RemoveHead(item);
        assert q[success..][1..] == q[success + 1..];
        success := success + 1;
      }
    }

    method GetStats(now: real) returns (stats: Stats)
      requires Valid()
      modifies `disk, `steps
      ensures Valid() && old(steps) <= steps
      ensures Queue(disk) == old(Queue(disk)) && disk.given == old(disk.given)
      ensures stats.count == |Queue(disk)|
      ensures stats.totalBytes == Total(Queue(disk)) == Sum(SizesFrom(Queue(disk), 0))
      ensures Queue(disk) == [] <==> stats.ages.NoAges?
      ensures stats.ages.Ages? ==>
        && stats.ages.oldest == now - Queue(disk)[0].at
        && stats.ages.newest == now - Queue(disk)[|Queue(disk)| - 1].at
    {
      hide Listing, Live, Sound, Run, After, Sum, SizesFrom;
      var items := ListItems();
      TotalSorted(ByAge, items);
      TotalIsSum(Queue(disk));
      if items == [] {
        return Stats(0, 0, NoAges);
      }
      var sorted := Sort(ByAge, items);
      stats := Stats(|items|, Total(items), Ages(now - sorted[0].at, now - sorted[|sorted| - 1].at));
    }
  }

  // The sender takes an item that comes with all the bytes once given for it.
  ghost predicate Takes(sender: Sender, k: nat, item: Item, given: map<Id, Given>) {
    item.id in given && sender(k, item, given[item.id].bytes)
  }

  lemma DistinctIds(d: Disk)
    requires Sound(d)
    ensures forall i, j | 0 <= i < j < |Queue(d)| :: Queue(d)[i].id != Queue(d)[j].id
  {
    var q := Queue(d);
    QueueShape(d);
    forall i, j | 0 <= i < j < |q|
      ensures q[i].id != q[j].id
    {
      assert Before(q[i], q[j]) && q[i] in q && q[j] in q;
    }
  }
}
