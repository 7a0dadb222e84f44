// What leases and attempt counts guarantee, over every run of IngestProtocol and over those whose workers
// keep to their lease.

module IngestLease {
  import opened IdempotencyStore
  import opened IngestProtocol
  import opened Optionals
  import opened Sequences

  // Attempts counted, and told to process, and taken into the pipeline.
  function Grants(log: seq<Event>, d: DocId): seq<nat> {
    if log == [] then []
    else
      var e := log[|log| - 1];
      Grants(log[..|log| - 1], d) + if e.Grant? && e.doc == d then [e.attempt] else []
  }

  function Entries(log: seq<Event>, d: DocId): seq<nat> {
    if log == [] then []
    else
      var e := log[|log| - 1];
      Entries(log[..|log| - 1], d) + if e.Enter? && e.doc == d then [e.attempt] else []
  }

  ghost predicate OneToN(s: seq<nat>, n: nat) {
    |s| == n && forall i | 0 <= i < n :: s[i] == i + 1
  }

  predicate BeforeEntry(pc: Pc) {
    !pc.InPipeline? && !pc.AtComplete? && !AfterMark(pc)
  }

  // A worker's lease on its document.
  predicate Holds(c: Config, k: Worker, doc: Doc) {
    && doc.updatedAt.Some? && k.since <= doc.updatedAt.value
    && 1 <= k.attempt <= doc.attempts
    && (Guarded(k.pc) ==> !Capped(c, k.attempt))
  }

  ghost predicate Sane(c: Config, s: State) {
    && (forall w | w in s.workers :: s.workers[w].doc in s.docs && Holds(c, s.workers[w], s.docs[s.workers[w].doc]))
    && (forall d | d in s.docs :: s.docs[d].updatedAt.Some? && s.docs[d].updatedAt.value <= s.now)
    && (forall v, w | v in s.workers && w in s.workers && v != w && s.workers[v].doc == s.workers[w].doc ::
          s.workers[v].attempt != s.workers[w].attempt)
  }

  // Where the workers after a step come from.
  lemma WorkerStep(c: Config, s: State, l: Step, w: WorkerId)
    requires Enabled(c, s, l) && w in Next(c, s, l).workers
    ensures var k := Next(c, s, l).workers[w];
      if l.Begin? && w == l.w then
        k.doc == l.doc && k.attempt == OrNew(s.docs, l.doc).attempts + 1 && k.since == s.now && k.pc.AtNote?
      else
        && w in s.workers && k == s.workers[w].(pc := k.pc)
        && (BeforeEntry(k.pc) ==> BeforeEntry(s.workers[w].pc) && !(l.EnterPipeline? && l.w == w))
        && (l.Tick? || l.w != w ==> k == s.workers[w])
  {
  }

  // What a step does to any one document.
  lemma DocStep(c: Config, s: State, l: Step, d: DocId)
    requires Sane(c, s) && Enabled(c, s, l) && d in Next(c, s, l).docs
    ensures var doc, next := OrNew(s.docs, d), Next(c, s, l).docs[d];
      && next.attempts >= doc.attempts
      && ((next.updatedAt == doc.updatedAt && d in s.docs) || next.updatedAt == Some(s.now))
    ensures l.Begin? && d == l.doc ==> Next(c, s, l).docs[d].updatedAt == Some(s.now)
    ensures s.now <= Next(c, s, l).now && s.docs.Keys <= Next(c, s, l).docs.Keys
  {
  }

  lemma SaneStep(c: Config, s: State, l: Step)
    requires Sane(c, s) && Enabled(c, s, l)
    ensures Sane(c, Next(c, s, l))
  {
    var t := Next(c, s, l);
    forall w | w in t.workers
      ensures t.workers[w].doc in t.docs && Holds(c, t.workers[w], t.docs[t.workers[w].doc])
    {
      HoldsStep(c, s, l, w);
    }
    forall d | d in t.docs
      ensures t.docs[d].updatedAt.Some? && t.docs[d].updatedAt.value <= t.now
    {
      DocStep(c, s, l, d);
    }
    forall v, w | v in t.workers && w in t.workers && v != w && t.workers[v].doc == t.workers[w].doc
      ensures t.workers[v].attempt != t.workers[w].attempt
    {
      hide Next;
      WorkerStep(c, s, l, v);
      WorkerStep(c, s, l, w);
    }
  }

  lemma HoldsStep(c: Config, s: State, l: Step, w: WorkerId)
    requires Sane(c, s) && Enabled(c, s, l) && w in Next(c, s, l).workers
    ensures Next(c, s, l).workers[w].doc in Next(c, s, l).docs
    ensures Holds(c, Next(c, s, l).workers[w], Next(c, s, l).docs[Next(c, s, l).workers[w].doc])
  {
    DocStep(c, s, l, Next(c, s, l).workers[w].doc);
    WorkerStep(c, s, l, w);
  }

  lemma {:induction false} SaneAfter(c: Config, steps: seq<Step>)
    ensures Sane(c, After(c, steps))
  {
    if steps != [] {
      var s, l := After(c, steps[..|steps| - 1]), steps[|steps| - 1];
      SaneAfter(c, steps[..|steps| - 1]);
      if Enabled(c, s, l) {
        SaneStep(c, s, l);
      }
    }
  }

  lemma {:induction false} LogAppend(log: seq<Event>, more: seq<Event>, d: DocId)
    ensures Grants(log + more, d) == Grants(log, d) + Grants(more, d)
    ensures Entries(log + more, d) == Entries(log, d) + Entries(more, d)
  {
    if more == [] {
      assert log + more == log;
    } else {
      assert (log + more)[..|log + more| - 1] == log + more[..|more| - 1];
      LogAppend(log, more[..|more| - 1], d);
    }
  }

  lemma OneEvent(e: Event, d: DocId)
    ensures Grants([e], d) == if e.Grant? && e.doc == d then [e.attempt] else []
    ensures Entries([e], d) == if e.Enter? && e.doc == d then [e.attempt] else []
  {
    assert [e][..0] == [];
  }

  lemma EventsCounted(c: Config, k: Worker, l: Step, d: DocId)
    ensures Grants(EventsOf(c, k, l), d) == []
    ensures Entries(EventsOf(c, k, l), d) == if l.EnterPipeline? && k.doc == d then [k.attempt] else []
  {
    hide Grants, Entries;
    var events := EventsOf(c, k, l);
    NoEvent(d);
    if events != [] {
      OneEvent(events[0], d);
      assert events == [events[0]] + events[1..];
      LogAppend([events[0]], events[1..], d);
      if l.Fail? && AfterMark(k.pc) {
        OneEvent(events[1], d);
        assert events[1..] == [events[1]];
      } else {
        assert events[1..] == [];
      }
    }
  }

  lemma NoEvent(d: DocId)
    ensures Grants([], d) == [] && Entries([], d) == []
  {
  }

  lemma LogStep(c: Config, s: State, l: Step, d: DocId)
    requires Enabled(c, s, l)
    ensures Grants(Next(c, s, l).log, d) ==
      Grants(s.log, d) + if l.Begin? && l.doc == d then [OrNew(s.docs, d).attempts + 1] else []
    ensures Entries(Next(c, s, l).log, d) ==
      Entries(s.log, d) + if l.EnterPipeline? && s.workers[l.w].doc == d then [s.workers[l.w].attempt] else []
  {
    hide Next, Grants, Entries;
    LogGrows(c, s, l);
    LogAppend(s.log, NewEvents(c, s, l), d);
    NoEvent(d);
    if l.Begin? {
      OneEvent(Grant(l.doc, OrNew(s.docs, l.doc).attempts + 1, s.now), d);
    } else if !l.Tick? {
      EventsCounted(c, s.workers[l.w], l, d);
    }
  }

  lemma AttemptsStep(c: Config, s: State, l: Step, d: DocId)
    requires Enabled(c, s, l)
    ensures OrNew(Next(c, s, l).docs, d).attempts ==
      OrNew(s.docs, d).attempts + if l.Begin? && l.doc == d then 1 else 0
  {
  }

  // The attempt count of a document is the number of times that a worker was told to process it, and
  // these were given the numbers 1, 2, 3 and so on, none of them twice.
  lemma {:induction false} AttemptsAreGrants(c: Config, steps: seq<Step>, d: DocId)
    ensures var s := After(c, steps); OneToN(Grants(s.log, d), OrNew(s.docs, d).attempts)
  {
    hide Next, Enabled;
    if steps != [] {
      var s, l := After(c, steps[..|steps| - 1]), steps[|steps| - 1];
      AttemptsAreGrants(c, steps[..|steps| - 1], d);
      if Enabled(c, s, l) {
        LogStep(c, s, l, d);
        AttemptsStep(c, s, l, d);
      }
    }
  }

  // The attempts that entered the pipeline, and the workers that still may.
  ghost predicate EnteredOnce(c: Config, s: State, d: DocId) {
    var entries := Entries(s.log, d);
    && Distinct(entries)
    && (forall a | a in entries :: 1 <= a <= OrNew(s.docs, d).attempts && !Capped(c, a))
    && (forall w | w in s.workers && s.workers[w].doc == d && BeforeEntry(s.workers[w].pc) ::
          s.workers[w].attempt !in entries)
  }

  lemma EnteredOnceStep(c: Config, s: State, l: Step, d: DocId)
    requires Sane(c, s) && EnteredOnce(c, s, d) && Enabled(c, s, l)
    ensures EnteredOnce(c, Next(c, s, l), d)
  {
    hide Next, Free, Finds, StepOf, OrNew, PcAfter, DocAfter, EventsOf, Entries;
    var t := Next(c, s, l);
    LogStep(c, s, l, d);
    AttemptsStep(c, s, l, d);
    if l.EnterPipeline? && s.workers[l.w].doc == d {
      EnteringOnce(c, s, l, d);
    }
    forall w | w in t.workers && t.workers[w].doc == d && BeforeEntry(t.workers[w].pc)
      ensures t.workers[w].attempt !in Entries(t.log, d)
    {
      WorkerStep(c, s, l, w);
    }
  }

  lemma EnteringOnce(c: Config, s: State, l: Step, d: DocId)
    requires Sane(c, s) && EnteredOnce(c, s, d) && Enabled(c, s, l)
    requires l.EnterPipeline? && s.workers[l.w].doc == d
    ensures s.workers[l.w].attempt !in Entries(s.log, d)
    ensures 1 <= s.workers[l.w].attempt <= OrNew(s.docs, d).attempts && !Capped(c, s.workers[l.w].attempt)
  {
  }

  lemma {:induction false} EnteredOnceAfter(c: Config, steps: seq<Step>, d: DocId)
    ensures EnteredOnce(c, After(c, steps), d)
  {
    if steps != [] {
      var s, l := After(c, steps[..|steps| - 1]), steps[|steps| - 1];
      EnteredOnceAfter(c, steps[..|steps| - 1], d);
      SaneAfter(c, steps[..|steps| - 1]);
      if Enabled(c, s, l) {
        EnteredOnceStep(c, s, l, d);
      }
    }
  }

  function Below(m: nat): set<nat> {
    if m <= 1 then {} else Below(m - 1) + {m - 1}
  }

  lemma {:induction false} BelowHolds(m: nat)
    ensures forall a: nat :: a in Below(m) <==> 1 <= a < m
    ensures m >= 1 ==> |Below(m)| == m - 1
  {
    if m > 1 {
      BelowHolds(m - 1);
    }
  }

  lemma FewBelow(s: seq<nat>, m: nat)
    requires Distinct(s) && m >= 1 && forall a | a in s :: 1 <= a < m
    ensures |s| <= m - 1
  {
    var attempts := set a | a in s;
    DistinctCount(s);
    BelowHolds(m);
    SubsetSize(attempts, Below(m));
  }

  // With a cap of m attempts the pipeline is entered at most m - 1 times for a document, in whatever way
  // the workers interleave, crash or outlive their lease.
  lemma BoundedProcessing(c: Config, steps: seq<Step>, d: DocId)
    requires c.cap > 0
    ensures |Entries(After(c, steps).log, d)| <= c.cap - 1
  {
    EnteredOnceAfter(c, steps, d);
    FewBelow(Entries(After(c, steps).log, d), c.cap);
  }

  // A handler never meets a recoverable failure at the cap: the cap was tested before.
  lemma RecoverableIsNeverFinal(c: Config, steps: seq<Step>, w: WorkerId)
    requires var s := After(c, steps); w in s.workers && Guarded(s.workers[w].pc)
    ensures FailureStatus(c, After(c, steps).workers[w], Recoverable) == Failed
  {
    SaneAfter(c, steps);
  }

  // No one marks d between two entries of the log.
  ghost predicate Unmarked(log: seq<Event>, i: nat, j: nat, d: DocId) {
    forall k | i <= k < j && k < |log| && log[k].Mark? :: log[k].doc != d
  }

  // A grant that no mark has followed leaves its document in processing, and written to since.
  ghost predicate Open(s: State, d: DocId) {
    forall i | 0 <= i < |s.log| && s.log[i].Grant? && s.log[i].doc == d && Unmarked(s.log, i, |s.log|, d) ::
      && d in s.docs && s.docs[d].status == Processing
      && s.docs[d].updatedAt.Some? && s.log[i].at <= s.docs[d].updatedAt.value
  }

  lemma UnmarkedPrefix(log: seq<Event>, more: seq<Event>, i: nat, d: DocId)
    requires log <= more && Unmarked(more, i, |more|, d)
    ensures Unmarked(log, i, |log|, d)
  {
    forall k | i <= k < |log| && log[k].Mark?
      ensures log[k].doc != d
    {
      assert more[k] == log[k];
    }
  }

  // A step that does not mark a document in processing leaves it so.
  lemma StaysOpen(c: Config, s: State, l: Step, d: DocId)
    requires Sane(c, s) && Enabled(c, s, l) && d in s.docs && s.docs[d].status == Processing
    requires forall e | e in NewEvents(c, s, l) && e.Mark? :: e.doc != d
    ensures d in Next(c, s, l).docs && Next(c, s, l).docs[d].status == Processing
    ensures Next(c, s, l).docs[d].updatedAt.Some?
    ensures Next(c, s, l).docs[d].updatedAt.value >= s.docs[d].updatedAt.value
  {
    if !l.Tick? && !l.Begin? {
      var events := EventsOf(c, s.workers[l.w], l);
      assert l.GiveUp? || l.Borrow? || l.Complete? ==> events[0].Mark? && events[0] in events;
      assert l.Fail? ==> events[|events| - 1].Mark? && events[|events| - 1] in events;
    }
  }

  lemma OpenStep(c: Config, s: State, l: Step, d: DocId)
    requires Sane(c, s) && Open(s, d) && Enabled(c, s, l)
    ensures Open(Next(c, s, l), d)
  {
    hide Next;
    var t, events := Next(c, s, l), NewEvents(c, s, l);
    LogGrows(c, s, l);
    forall i | 0 <= i < |t.log| && t.log[i].Grant? && t.log[i].doc == d && Unmarked(t.log, i, |t.log|, d)
      ensures d in t.docs && t.docs[d].status == Processing
      ensures t.docs[d].updatedAt.Some? && t.log[i].at <= t.docs[d].updatedAt.value
    {
      if i < |s.log| {
        hide NewEvents, EventsOf;
        UnmarkedPrefix(s.log, t.log, i, d);
        forall e | e in events && e.Mark?
          ensures e.doc != d
        {
          var k :| 0 <= k < |events| && events[k] == e;
          assert t.log[|s.log| + k] == e;
        }
        StaysOpen(c, s, l, d);
      } else {
        assert events[i - |s.log|].Grant? && l.Begin?;
        GrantOpens(c, s, l);
      }
    }
  }

  lemma GrantOpens(c: Config, s: State, l: Step)
    requires Enabled(c, s, l) && l.Begin?
    ensures l.doc in Next(c, s, l).docs && Next(c, s, l).docs[l.doc].status == Processing
    ensures Next(c, s, l).docs[l.doc].updatedAt == Some(s.now)
  {
  }

  lemma {:induction false} OpenAfter(c: Config, steps: seq<Step>, d: DocId)
    ensures Open(After(c, steps), d)
  {
    if steps != [] {
      var s, l := After(c, steps[..|steps| - 1]), steps[|steps| - 1];
      OpenAfter(c, steps[..|steps| - 1], d);
      SaneAfter(c, steps[..|steps| - 1]);
      if Enabled(c, s, l) {
        OpenStep(c, s, l, d);
      }
    }
  }

  // Two workers are told to process the same document, without a mark in between, only more than a
  // lease apart.
  lemma {:induction false} GrantsApart(c: Config, steps: seq<Step>, d: DocId, i: nat, j: nat)
    requires var log := After(c, steps).log;
      && i < j < |log| && log[i].Grant? && log[j].Grant? && log[i].doc == log[j].doc == d
      && Unmarked(log, i, j, d)
    ensures After(c, steps).log[j].at - After(c, steps).log[i].at > c.ttl
  {
    var s, l := After(c, steps[..|steps| - 1]), steps[|steps| - 1];
    var t := After(c, steps);
    if j < |s.log| {
      assert s.log <= t.log;
      assert t.log[i] == s.log[i] && t.log[j] == s.log[j];
      assert forall k | i <= k < j :: t.log[k] == s.log[k];
      GrantsApart(c, steps[..|steps| - 1], d, i, j);
    } else {
      assert l.Begin? && j == |s.log| && s.log <= t.log;
      assert t.log[i] == s.log[i];
      assert Unmarked(s.log, i, |s.log|, d) by {
        assert forall k | i <= k < |s.log| :: t.log[k] == s.log[k];
      }
      OpenAfter(c, steps[..|steps| - 1], d);
    }
  }
}
