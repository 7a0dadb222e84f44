// Concurrent uploads at the edge gateway (gcp_adapter/edge_gateway_service.py): an upload checks the
// backlog, waits for its body to arrive, and only then stores or buffers it.

module EdgeGateway {
  import opened EdgeHistory
  import opened EdgePolicies
  import opened EdgeQueue

  // The settings of the gateway and of its buffer; at most uploads are between check and end at any time.
  datatype Config = Config(policy: BackpressurePolicy, uploads: nat, maxBytes: int, ttl: int)

  // What the buffer has been through, and the uploads between their check and their end.
  datatype Gateway = Gateway(ops: seq<Op>, inFlight: nat)

  datatype Event =
    | Check                            // an upload asks for admission and gets it or is turned away
    | Stored                           // an upload ends in the object store
    | TooLarge                         // an upload is refused once its size is known
    | Buffered(item: Item, now: real)  // an upload ends in the buffer, which then prunes itself
    | Replayed(taken: nat)
    | Pruned(now: real)

  // The buffer's queue, as EdgeHistory.Perform brings it about.
  function Queued(c: Config, g: Gateway): seq<Item> {
    After(g.ops, c.maxBytes, c.ttl).queue
  }

  predicate Enabled(c: Config, g: Gateway, e: Event) {
    match e
    case Check => g.inFlight < c.uploads
    case Stored => g.inFlight > 0
    case TooLarge => g.inFlight > 0
    case Buffered(_, _) => g.inFlight > 0
    case Replayed(_) => true
    case Pruned(_) => true
  }

  function Apply(c: Config, g: Gateway, e: Event): Gateway
    requires Enabled(c, g, e)
  {
    match e
    case Check => if c.policy.ShouldAccept(|Queued(c, g)|) then g.(inFlight := g.inFlight + 1) else g
    case Stored => g.(inFlight := g.inFlight - 1)
    case TooLarge => g.(inFlight := g.inFlight - 1)
    case Buffered(item, now) => Gateway(g.ops + [Add(item, now)], g.inFlight - 1)
    case Replayed(taken) => g.(ops := g.ops + [Replay(taken)])
    case Pruned(now) => g.(ops := g.ops + [Prune(now)])
  }

  ghost predicate Runs(c: Config, g: Gateway, events: seq<Event>, end: Gateway)
    decreases |events|
  {
    if events == [] then g == end
    else Enabled(c, g, events[0]) && Runs(c, Apply(c, g, events[0]), events[1..], end)
  }

  function Max(a: int, b: int): int {
    if a >= b then a else b
  }

  lemma OneMore(ops: seq<Op>, op: Op, maxBytes: int, ttl: int)
    ensures After(ops + [op], maxBytes, ttl) == Next(After(ops, maxBytes, ttl), op, maxBytes, ttl)
  {
    assert (ops + [op])[..|ops|] == ops;
  }

  // An addition makes the queue longer by one at most; replays and prunes never do.
  lemma QueueGrows(h: History, op: Op, maxBytes: int, ttl: int)
    ensures |Next(h, op, maxBytes, ttl).queue| <= |h.queue| + if op.Add? then 1 else 0
  {
    match op
    case Add(item, now) => PrunedIsNoLonger(Enqueue(h.queue, item), maxBytes, ttl, now);
    case Prune(now) => PrunedIsNoLonger(h.queue, maxBytes, ttl, now);
    case Replay(taken) =>
  }

  lemma LoadGrows(c: Config, g: Gateway, e: Event)
    requires Enabled(c, g, e)
    ensures var now := Apply(c, g, e);
      |Queued(c, now)| + now.inFlight <= |Queued(c, g)| + g.inFlight +
           if e.Check? && c.policy.ShouldAccept(|Queued(c, g)|) then 1 else 0
  {
    hide Next;
    if e.Buffered? || e.Replayed? || e.Pruned? {
      var op := if e.Buffered? then Add(e.item, e.now) else if e.Replayed? then Replay(e.taken) else Prune(e.now);
      OneMore(g.ops, op, c.maxBytes, c.ttl);
      QueueGrows(After(g.ops, c.maxBytes, c.ttl), op, c.maxBytes, c.ttl);
    }
  }

  // No interleaving of uploads, replays and prunes takes the buffer beyond what it held at first or
  // beyond one below the limit plus the concurrent uploads.
  lemma {:induction false} BufferBounded(c: Config, g: Gateway, events: seq<Event>, end: Gateway, bound: int)
    requires Runs(c, g, events, end)
    requires |Queued(c, g)| + g.inFlight <= bound && c.policy.Limit() - 1 + c.uploads <= bound
    ensures |Queued(c, end)| + end.inFlight <= bound
    decreases |events|
  {
    if events != [] {
      LoadGrows(c, g, events[0]);
      hide Queued;
      BufferBounded(c, Apply(c, g, events[0]), events[1..], end, bound);
    }
  }

  lemma BufferedCount(c: Config, g: Gateway, events: seq<Event>, end: Gateway)
    requires g.inFlight == 0 && Runs(c, g, events, end)
    ensures |Queued(c, end)| <= Max(|Queued(c, g)|, c.policy.Limit() - 1 + c.uploads)
  {
    BufferBounded(c, g, events, end, Max(|Queued(c, g)|, c.policy.Limit() - 1 + c.uploads));
  }

  // The uploads that a run admits, which is when the buffer holds fewer items than both settings allow, and
  // those that end in it.
  ghost function Admissions(c: Config, g: Gateway, events: seq<Event>, end: Gateway): nat
    requires Runs(c, g, events, end)
    decreases |events|
  {
    if events == [] then 0
    else
      var n := |Queued(c, g)|;
      (if events[0].Check? && n < c.policy.maxBacklog && n < c.policy.hardLimit then 1 else 0)
      + Admissions(c, Apply(c, g, events[0]), events[1..], end)
  }

  function Endings(events: seq<Event>): nat {
    if events == [] then 0
    else (if events[0].Stored? || events[0].TooLarge? || events[0].Buffered? then 1 else 0) + Endings(events[1..])
  }

  // The uploads between their check and their end are those admitted and not ended, in every run.
  lemma {:induction false} UploadsCounted(c: Config, g: Gateway, events: seq<Event>, end: Gateway)
    requires Runs(c, g, events, end)
    ensures end.inFlight == g.inFlight + Admissions(c, g, events, end) - Endings(events)
    ensures 0 <= end.inFlight && (g.inFlight <= c.uploads ==> end.inFlight <= c.uploads)
    decreases |events|
  {
    if events != [] {
      hide Queued;
      UploadsCounted(c, Apply(c, g, events[0]), events[1..], end);
    }
  }

  // ---------------------------------------------------------------- a run that reaches the bound

  lemma {:induction false} RunsAppend(
    c: Config, g: Gateway, a: seq<Event>, mid: Gateway, b: seq<Event>, end: Gateway)
    requires Runs(c, g, a, mid) && Runs(c, mid, b, end)
    ensures Runs(c, g, a + b, end)
    decreases |a|
  {
    if a == [] {
      assert a + b == b;
    } else {
      assert (a + b)[1..] == a[1..] + b;
      RunsAppend(c, Apply(c, g, a[0]), a[1..], mid, b, end);
    }
  }

  lemma OneEvent(c: Config, g: Gateway, e: Event)
    requires Enabled(c, g, e)
    ensures Runs(c, g, [e], Apply(c, g, e))
  {
    assert [e][1..] == [];
    assert Runs(c, Apply(c, g, e), [], Apply(c, g, e));
  }

  // Additions of empty files at time zero, which never expire and never exceed the cap.
  function Additions(n: nat): seq<Op> {
    if n == 0 then [] else Additions(n - 1) + [Add(Item(n, 0.0, 0), 0.0)]
  }

  function Burst(n: nat): Event {
    Buffered(Item(n + 1, 0.0, 0), 0.0)
  }

  ghost predicate AllKeep(c: Config, q: seq<Item>) {
    c.maxBytes >= 0 && c.ttl >= 0 && forall x | x in q :: x.at == 0.0 && x.size == 0
  }

  lemma {:induction false} NothingExpired(q: seq<Item>, ttl: int)
    requires ttl >= 0 && forall x | x in q :: x.at == 0.0
    ensures Unexpired(q, ttl, 0.0) == q
  {
    if q != [] {
      var m := |q| - 1;
      assert q == q[..m] + [q[m]] && q[m] in q;
      NothingExpired(q[..m], ttl);
    }
  }

  lemma {:induction false} NothingHeavy(q: seq<Item>)
    requires forall x | x in q :: x.size == 0
    ensures Total(q) == 0
  {
    if q != [] {
      assert q[0] in q && forall x | x in q[1..] :: x in q;
      NothingHeavy(q[1..]);
    }
  }

  lemma AnotherQueued(c: Config, h: History, x: Item)
    requires AllKeep(c, h.queue) && x.at == 0.0 && x.size == 0
    ensures var q := Next(h, Add(x, 0.0), c.maxBytes, c.ttl).queue;
      q == Enqueue(h.queue, x) && AllKeep(c, q)
  {
    var all := Enqueue(h.queue, x);
    hide Enqueue;
    NothingExpired(all, c.ttl);
    NothingHeavy(all);
  }

  lemma AdditionsNext(n: nat)
    ensures Additions(n + 1) == Additions(n) + [Add(Item(n + 1, 0.0, 0), 0.0)]
  {
  }

  lemma NoneQueued(c: Config)
    requires c.maxBytes >= 0 && c.ttl >= 0
    ensures Additions(0) == [] && After([], c.maxBytes, c.ttl).queue == [] && AllKeep(c, [])
  {
  }

  lemma {:induction false} AllQueued(c: Config, n: nat)
    requires c.maxBytes >= 0 && c.ttl >= 0
    ensures |Queued(c, Gateway(Additions(n), 0))| == n && AllKeep(c, Queued(c, Gateway(Additions(n), 0)))
  {
    hide After, Next, AllKeep, Additions;
    NoneQueued(c);
    if n > 0 {
      AllQueued(c, n - 1);
      AdditionsNext(n - 1);
      OneMore(Additions(n - 1), Add(Item(n, 0.0, 0), 0.0), c.maxBytes, c.ttl);
      AnotherQueued(c, After(Additions(n - 1), c.maxBytes, c.ttl), Item(n, 0.0, 0));
    }
  }

  // The bound is reached: fill the buffer one by one up to the limit less one, admit as many uploads as can
  // run at once, and let all of them be buffered.
  lemma BoundReached(c: Config) returns (events: seq<Event>, end: Gateway)
    requires c.policy.Limit() >= 1 && c.uploads >= 1 && c.maxBytes >= 0 && c.ttl >= 0
    ensures Runs(c, Gateway([], 0), events, end) && |Queued(c, end)| == c.policy.Limit() - 1 + c.uploads
  {
    hide After, Additions, Runs;
    var n := c.policy.Limit() - 1;
    var start, full, burst := Gateway([], 0), Gateway(Additions(n), 0), Gateway(Additions(n), c.uploads);
    end := Gateway(Additions(n + c.uploads), 0);
    var filled := FillOneByOne(c, n);
    var admitted := Admit(c, n, c.uploads);
    var ended := BufferAll(c, n, c.uploads);
    RunsAppend(c, full, admitted, burst, ended, end);
    RunsAppend(c, start, filled, full, admitted + ended, end);
    events := filled + (admitted + ended);
    AllQueued(c, n + c.uploads);
  }

  lemma Nothing(c: Config, g: Gateway)
    ensures Runs(c, g, [], g)
  {
  }

  // With room for it an upload is admitted.
  lemma Admitted(c: Config, n: nat, k: nat)
    requires n < c.policy.Limit() && k < c.uploads && c.maxBytes >= 0 && c.ttl >= 0
    ensures Runs(c, Gateway(Additions(n), k), [Check], Gateway(Additions(n), k + 1))
  {
    AllQueued(c, n);
    hide After, Additions, Runs, AllKeep;
    OneEvent(c, Gateway(Additions(n), k), Check);
  }

  lemma Ended(c: Config, n: nat, k: nat)
    ensures Runs(c, Gateway(Additions(n), k + 1), [Burst(n)], Gateway(Additions(n + 1), k))
  {
    AdditionsNext(n);
    hide Additions, Runs, Queued;
    OneEvent(c, Gateway(Additions(n), k + 1), Burst(n));
  }

  lemma {:induction false} FillOneByOne(c: Config, n: nat) returns (events: seq<Event>)
    requires c.uploads >= 1 && n < c.policy.Limit() && c.maxBytes >= 0 && c.ttl >= 0
    ensures Runs(c, Gateway([], 0), events, Gateway(Additions(n), 0))
  {
    hide After, Additions, Runs;
    NoneQueued(c);
    Nothing(c, Gateway([], 0));
    events := [];
    if n > 0 {
      var before := FillOneByOne(c, n - 1);
      var free, taken := Gateway(Additions(n - 1), 0), Gateway(Additions(n - 1), 1);
      Admitted(c, n - 1, 0);
      Ended(c, n - 1, 0);
      RunsAppend(c, free, [Check], taken, [Burst(n - 1)], Gateway(Additions(n), 0));
      RunsAppend(c, Gateway([], 0), before, free, [Check] + [Burst(n - 1)], Gateway(Additions(n), 0));
      events := before + ([Check] + [Burst(n - 1)]);
    }
  }

  lemma {:induction false} Admit(c: Config, n: nat, k: nat) returns (events: seq<Event>)
    requires n < c.policy.Limit() && k <= c.uploads && c.maxBytes >= 0 && c.ttl >= 0
    ensures Runs(c, Gateway(Additions(n), 0), events, Gateway(Additions(n), k))
  {
    hide Additions, Runs;
    Nothing(c, Gateway(Additions(n), 0));
    events := [];
    if k > 0 {
      var before := Admit(c, n, k - 1);
      Admitted(c, n, k - 1);
      RunsAppend(c, Gateway(Additions(n), 0), before, Gateway(Additions(n), k - 1), [Check], Gateway(Additions(n), k));
      events := before + [Check];
    }
  }

  lemma {:induction false} BufferAll(c: Config, n: nat, k: nat) returns (events: seq<Event>)
    ensures Runs(c, Gateway(Additions(n), k), events, Gateway(Additions(n + k), 0))
    decreases k
  {
    hide Additions, Runs;
    Nothing(c, Gateway(Additions(n), 0));
    events := [];
    if k > 0 {
      var rest := BufferAll(c, n + 1, k - 1);
      Ended(c, n, k - 1);
      RunsAppend(
        c, Gateway(Additions(n), k), [Burst(n)], Gateway(Additions(n + 1), k - 1), rest, Gateway(Additions(n + k), 0));
      events := [Burst(n)] + rest;
    }
  }
}
