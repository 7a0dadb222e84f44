// Runs of IngestProtocol in which every worker marks its document or dies within a lease of its grant.

module IngestTimely {
  import opened IdempotencyStore
  import opened IngestProtocol
  import opened IngestLease
  import opened Optionals

  ghost predicate InTime(c: Config, s: State) {
    forall w | w in s.workers :: s.now - s.workers[w].since <= c.ttl
  }

  ghost predicate Timely(c: Config, steps: seq<Step>) {
    InTime(c, After(c, steps)) && (steps != [] ==> Timely(c, steps[..|steps| - 1]))
  }

  // Each document has one worker at most, and is in processing or, once its worker has completed it, is
  // completed.
  ghost predicate Exclusive(s: State) {
    && (forall v, w | v in s.workers && w in s.workers && v != w :: s.workers[v].doc != s.workers[w].doc)
    && (forall w | w in s.workers :: StatusFits(s, w))
  }

  // No one else is at work on a document that is given to a worker.
  lemma FreeIsUnheld(c: Config, s: State, d: DocId, w: WorkerId)
    requires Sane(c, s) && InTime(c, s) && Exclusive(s)
    requires Free(s.docs, d, s.now, c.ttl) && w in s.workers
    ensures s.workers[w].doc != d
  {
  }

  predicate StatusFits(s: State, w: WorkerId)
    requires w in s.workers
  {
    && s.workers[w].doc in s.docs
    && s.docs[s.workers[w].doc].status == if AfterMark(s.workers[w].pc) then Completed else Processing
  }

  lemma StatusFitsStep(c: Config, s: State, l: Step, w: WorkerId)
    requires Exclusive(s) && Enabled(c, s, l) && w in Next(c, s, l).workers
    requires l.Begin? && w != l.w ==> s.workers[w].doc != l.doc
    ensures StatusFits(Next(c, s, l), w)
  {
    WorkerStep(c, s, l, w);
    if l.Begin? && w == l.w {
      BegunFits(c, s, l);
    } else {
      hide Exclusive;
      OnOneDocument(s, l, w);
      RunningFits(c, s, l, w);
    }
  }

  lemma BegunFits(c: Config, s: State, l: Step)
    requires Enabled(c, s, l) && l.Begin?
    ensures StatusFits(Next(c, s, l), l.w)
  {
  }

  lemma OnOneDocument(s: State, l: Step, w: WorkerId)
    requires Exclusive(s) && w in s.workers
    ensures StatusFits(s, w)
    ensures !l.Tick? && !l.Begin? && l.w in s.workers && l.w != w ==> s.workers[l.w].doc != s.workers[w].doc
  {
  }

  lemma RunningFits(c: Config, s: State, l: Step, w: WorkerId)
    requires Enabled(c, s, l) && w in s.workers && w in Next(c, s, l).workers && StatusFits(s, w)
    requires !(l.Begin? && w == l.w)
    requires l.Begin? ==> s.workers[w].doc != l.doc
    requires !l.Tick? && !l.Begin? && l.w in s.workers && l.w != w ==> s.workers[l.w].doc != s.workers[w].doc
    ensures StatusFits(Next(c, s, l), w)
  {
  }

  lemma ExclusiveStep(c: Config, s: State, l: Step)
    requires Sane(c, s) && InTime(c, s) && Exclusive(s) && Enabled(c, s, l)
    ensures Exclusive(Next(c, s, l))
  {
    hide Next;
    var t := Next(c, s, l);
    if l.Begin? {
      forall w | w in s.workers
        ensures s.workers[w].doc != l.doc
      {
        FreeIsUnheld(c, s, l.doc, w);
      }
    }
    forall w | w in t.workers
      ensures StatusFits(t, w)
    {
      WorkerStep(c, s, l, w);
      StatusFitsStep(c, s, l, w);
    }
    forall v, w | v in t.workers && w in t.workers && v != w
      ensures t.workers[v].doc != t.workers[w].doc
    {
      WorkerStep(c, s, l, v);
      WorkerStep(c, s, l, w);
    }
  }

  // At any time at most one worker is at work on a document.
  lemma {:induction false} LeaseSafety(c: Config, steps: seq<Step>)
    requires Timely(c, steps)
    ensures Exclusive(After(c, steps))
  {
    if steps != [] {
      var s, l := After(c, steps[..|steps| - 1]), steps[|steps| - 1];
      LeaseSafety(c, steps[..|steps| - 1]);
      SaneAfter(c, steps[..|steps| - 1]);
      if Enabled(c, s, l) {
        ExclusiveStep(c, s, l);
      }
    }
  }

  // The status that a step of the worker k gives to its document, if it gives one.
  function MarkBy(c: Config, k: Worker, l: Step): Option<Status> {
    match l
    case GiveUp(_) => Some(Dlq)
    case Borrow(_) => Some(Completed)
    case Complete(_) => Some(Completed)
    case Fail(_, kind) => Some(FailureStatus(c, k, kind))
    case _ => None
  }

  // In any run at all a completed or dead-lettered document changes its status exactly when a worker
  // that still holds it marks it otherwise.
  lemma FinalIsLeft(c: Config, s: State, l: Step, d: DocId)
    requires Enabled(c, s, l) && d in s.docs && Final(s.docs[d].status)
    ensures d in Next(c, s, l).docs
    ensures Next(c, s, l).docs[d].status != s.docs[d].status <==>
      && !l.Tick? && l.w in s.workers && s.workers[l.w].doc == d
      && MarkBy(c, s.workers[l.w], l).Some? && MarkBy(c, s.workers[l.w], l) != Some(s.docs[d].status)
  {
  }

  // When workers keep to their lease, this happens exactly when a worker that has completed a document
  // fails before it has recorded the result or cleaned up after a loan.
  lemma FinalIsLeftInTime(c: Config, steps: seq<Step>, l: Step, d: DocId)
    requires Timely(c, steps) && Enabled(c, After(c, steps), l)
    requires d in After(c, steps).docs && Final(After(c, steps).docs[d].status)
    ensures d in Next(c, After(c, steps), l).docs
    ensures var s := After(c, steps);
      Next(c, s, l).docs[d].status != s.docs[d].status <==>
        l.Fail? && s.workers[l.w].doc == d && AfterMark(s.workers[l.w].pc)
  {
    LeaseSafety(c, steps);
    FinalIsLeft(c, After(c, steps), l, d);
  }

  function Completions(log: seq<Event>, d: DocId): nat {
    if log == [] then 0
    else Completions(log[..|log| - 1], d) + if log[|log| - 1] == Mark(d, Completed) then 1 else 0
  }

  function Undone(log: seq<Event>, d: DocId): nat {
    if log == [] then 0
    else Undone(log[..|log| - 1], d) + if log[|log| - 1] == Undo(d) then 1 else 0
  }

  lemma {:induction false} CountAppend(log: seq<Event>, more: seq<Event>, d: DocId)
    ensures Completions(log + more, d) == Completions(log, d) + Completions(more, d)
    ensures Undone(log + more, d) == Undone(log, d) + Undone(more, d)
  {
    if more == [] {
      assert log + more == log;
    } else {
      assert (log + more)[..|log + more| - 1] == log + more[..|more| - 1];
      CountAppend(log, more[..|more| - 1], d);
    }
  }

  lemma CountOne(e: Event, d: DocId)
    ensures Completions([e], d) == if e == Mark(d, Completed) then 1 else 0
    ensures Undone([e], d) == if e == Undo(d) then 1 else 0
    ensures Completions([], d) == 0 && Undone([], d) == 0
  {
    assert [e][..0] == [];
  }

  lemma EventsMarked(c: Config, k: Worker, l: Step, d: DocId)
    requires StepOf(k.pc, l)
    ensures Completions(EventsOf(c, k, l), d) == if k.doc == d && MarkBy(c, k, l) == Some(Completed) then 1 else 0
    ensures Undone(EventsOf(c, k, l), d) == if l.Fail? && k.doc == d && AfterMark(k.pc) then 1 else 0
  {
    hide Completions, Undone;
    var events := EventsOf(c, k, l);
    CountOne(Undo(d), d);
    if events != [] {
      CountOne(events[0], d);
      assert events == [events[0]] + events[1..];
      CountAppend([events[0]], events[1..], d);
      if l.Fail? && AfterMark(k.pc) {
        CountOne(events[1], d);
        assert events[1..] == [events[1]];
      } else {
        assert events[1..] == [];
      }
    }
  }

  lemma CountStep(c: Config, s: State, l: Step, d: DocId)
    requires Enabled(c, s, l)
    ensures Completions(Next(c, s, l).log, d) == Completions(s.log, d) +
      if !l.Tick? && !l.Begin? && s.workers[l.w].doc == d && MarkBy(c, s.workers[l.w], l) == Some(Completed)
      then 1 else 0
    ensures Undone(Next(c, s, l).log, d) == Undone(s.log, d) +
      if l.Fail? && s.workers[l.w].doc == d && AfterMark(s.workers[l.w].pc) then 1 else 0
  {
    hide Next, Completions, Undone;
    LogGrows(c, s, l);
    CountAppend(s.log, NewEvents(c, s, l), d);
    CountOne(Undo(d), d);
    if l.Begin? {
      CountOne(Grant(l.doc, OrNew(s.docs, l.doc).attempts + 1, s.now), d);
    } else if !l.Tick? {
      EventsMarked(c, s.workers[l.w], l, d);
    }
  }

  function IsCompleted(s: State, d: DocId): nat {
    if OrNew(s.docs, d).status == Completed then 1 else 0
  }

  lemma StatusStep(c: Config, s: State, l: Step, d: DocId)
    requires Enabled(c, s, l)
    ensures OrNew(Next(c, s, l).docs, d).status ==
      if l.Begin? && l.doc == d then Processing
      else if !l.Tick? && !l.Begin? && s.workers[l.w].doc == d && MarkBy(c, s.workers[l.w], l).Some? then
        MarkBy(c, s.workers[l.w], l).value
      else OrNew(s.docs, d).status
  {
  }

  // A document is completed once, and once more for each failure after a completing mark.
  lemma {:induction false} CompletionsCounted(c: Config, steps: seq<Step>, d: DocId)
    requires Timely(c, steps)
    ensures var s := After(c, steps);
      Completions(s.log, d) == Undone(s.log, d) + IsCompleted(s, d)
  {
    hide Next, Finds;
    if steps != [] {
      var s, l := After(c, steps[..|steps| - 1]), steps[|steps| - 1];
      CompletionsCounted(c, steps[..|steps| - 1], d);
      LeaseSafety(c, steps[..|steps| - 1]);
      if Enabled(c, s, l) {
        CountStep(c, s, l, d);
        StatusStep(c, s, l, d);
      }
    }
  }

  // So if no worker of a document fails after its completing mark, it is completed at most once, and
  // completed and dead-lettered are never left.
  lemma {:induction false} FinalForGood(c: Config, steps: seq<Step>, k: nat, d: DocId)
    requires Timely(c, steps) && Undone(After(c, steps).log, d) == 0
    requires k <= |steps| && Final(OrNew(After(c, steps[..k]).docs, d).status)
    ensures OrNew(After(c, steps).docs, d).status == OrNew(After(c, steps[..k]).docs, d).status
    ensures Completions(After(c, steps).log, d) <= 1
  {
    hide Next, Enabled;
    CompletionsCounted(c, steps, d);
    if k < |steps| {
      var m := |steps| - 1;
      var s, l := After(c, steps[..m]), steps[m];
      assert steps[..m][..k] == steps[..k];
      if Enabled(c, s, l) {
        CountStep(c, s, l, d);
        FinalForGood(c, steps[..m], k, d);
        FinalIsLeftInTime(c, steps[..m], l, d);
      } else {
        FinalForGood(c, steps[..m], k, d);
      }
    } else {
      assert steps[..k] == steps;
    }
  }

  // No time passes.
  ghost predicate Prompt(steps: seq<Step>) {
    forall l | l in steps :: !l.Tick?
  }

  lemma {:induction false} PromptIsTimely(c: Config, steps: seq<Step>)
    requires Prompt(steps) && c.ttl >= 0
    ensures Timely(c, steps) && After(c, steps).now == 0
    ensures forall w | w in After(c, steps).workers :: After(c, steps).workers[w].since == 0
  {
    hide Next, Enabled;
    if steps != [] {
      var s, l := After(c, steps[..|steps| - 1]), steps[|steps| - 1];
      assert l in steps && Prompt(steps[..|steps| - 1]);
      PromptIsTimely(c, steps[..|steps| - 1]);
      if Enabled(c, s, l) {
        PromptStep(c, s, l);
      }
    }
  }

  lemma PromptStep(c: Config, s: State, l: Step)
    requires Enabled(c, s, l) && !l.Tick? && s.now == 0
    requires forall w | w in s.workers :: s.workers[w].since == 0
    ensures Next(c, s, l).now == 0
    ensures forall w | w in Next(c, s, l).workers :: Next(c, s, l).workers[w].since == 0
  {
  }

  lemma One(c: Config, steps: seq<Step>, l: Step) returns (more: seq<Step>, s: State)
    requires Enabled(c, After(c, steps), l)
    ensures more == steps + [l] && s == After(c, more) == Next(c, After(c, steps), l)
    ensures Prompt(steps) && !l.Tick? ==> Prompt(more)
  {
    more := steps + [l];
    s := After(c, more);
    assert more[..|steps|] == steps;
  }

  // A worker is told to process a free document and gets as far as its first lookup.
  lemma Start(c: Config, steps: seq<Step>, w: WorkerId, d: DocId) returns (more: seq<Step>)
    requires var s := After(c, steps);
      w !in s.workers && Free(s.docs, d, s.now, c.ttl) && !Capped(c, OrNew(s.docs, d).attempts + 1)
    ensures var s, t := After(c, steps), After(c, more);
      && t.now == s.now && t.log == s.log + [Grant(d, OrNew(s.docs, d).attempts + 1, s.now)]
      && t.docs == s.docs[d := Granted(OrNew(s.docs, d), s.now, None, "")]
      && t.workers == s.workers[w := Worker(d, OrNew(s.docs, d).attempts + 1, s.now, "-:-:-", true, AtSearch)]
    ensures steps <= more && (Prompt(steps) ==> Prompt(more))
  {
    hide After, Prompt;
    var s;
    more, s := One(c, steps, Begin(w, d, "-:-:-", true, None, ""));
    more, s := One(c, more, NoteFails(w));
    more, s := One(c, more, CheckCap(w));
  }

  // It finds nothing to borrow.
  lemma Prepare(c: Config, steps: seq<Step>, w: WorkerId) returns (more: seq<Step>)
    requires var s := After(c, steps);
      w in s.workers && s.workers[w].doc in s.docs && s.workers[w].pc.AtSearch?
    ensures var s, t := After(c, steps), After(c, more);
      t == s.(workers := s.workers[w := s.workers[w].(pc := AtEnter(None))])
    ensures steps <= more && (Prompt(steps) ==> Prompt(more))
  {
    hide After, Prompt;
    var s;
    var scopeKey, same := After(c, steps).workers[w].scopeKey, (x: string) => x;
    more, s := One(c, steps, Search(w, "", Query(Some(scopeKey), None, None, None, None, None, None, same), None));
    more, s := One(c, more, Download(w, None));
    more, s := One(c, more, Compare(w, Query(Some(scopeKey), None, None, None, None, None, None, same), None));
  }

  // It goes through the pipeline and completes the document.
  lemma Finish(c: Config, steps: seq<Step>, w: WorkerId, outcome: Outcome) returns (more: seq<Step>)
    requires var s := After(c, steps);
      w in s.workers && s.workers[w].doc in s.docs && s.workers[w].pc.AtEnter?
    ensures var s, t := After(c, steps), After(c, more);
      && OrNew(t.docs, s.workers[w].doc).status == Completed
      && OrNew(t.docs, s.workers[w].doc).facts == OrNew(s.docs, s.workers[w].doc).facts
      && t.workers == s.workers[w := s.workers[w].(pc := AtRecord(s.workers[w].pc.contentHash, outcome))]
    ensures steps <= more && (Prompt(steps) ==> Prompt(more))
  {
    hide After, Prompt;
    var s;
    more, s := One(c, steps, EnterPipeline(w));
    more, s := One(c, more, LeavePipeline(w, outcome));
    more, s := One(c, more, Complete(w));
  }

  // A worker that outlives its lease can undo the completion by another: the document is completed, then
  // failed, and may be processed again.
  lemma OverLeaseExample() returns (c: Config, steps: seq<Step>, d: DocId)
    ensures OrNew(After(c, steps).docs, d).status == Completed
    ensures OrNew(After(c, steps + [Fail(0, Recoverable)]).docs, d).status == Failed
    ensures Free(After(c, steps + [Fail(0, Recoverable)]).docs, d, After(c, steps).now, c.ttl)
  {
    var s;
    c, d := Config(0, 0), "d";
    steps := Start(c, [], 0, d);
    steps, s := One(c, steps, Tick(1));
    steps := Start(c, steps, 1, d);
    steps := Prepare(c, steps, 1);
    steps := Finish(c, steps, 1, Outcome("m", None));
    var _, t := One(c, steps, Fail(0, Recoverable));
  }
}
