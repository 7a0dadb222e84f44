// Which result a document carries after a run of IngestProtocol (gcp_adapter/ingestion_service.py): the one
// that its worker's pipeline run yielded, or the lender's, or none as yet.

module IngestResults {
  import opened IdempotencyStore
  import opened IngestProtocol
  import opened IngestLease
  import opened IngestTimely
  import opened Optionals

  // The step is taken, by a worker of d.
  ghost predicate ByWorkerOf(c: Config, s: State, l: Step, d: DocId) {
    Enabled(c, s, l) && !l.Tick? && !l.Begin? && s.workers[l.w].doc == d
  }

  // The manifest that the pipeline last yielded to the worker.
  ghost function Yielded(c: Config, steps: seq<Step>, w: WorkerId): Option<string> {
    if steps == [] then None
    else
      var before, l := steps[..|steps| - 1], steps[|steps| - 1];
      if l.LeavePipeline? && l.w == w && Enabled(c, After(c, before), l) then Some(l.outcome.manifest)
      else Yielded(c, before, w)
  }

  // The manifest of the document that a lookup of the worker last found, if that had one.
  ghost function Offered(c: Config, steps: seq<Step>, w: WorkerId): Option<string> {
    if steps == [] then None
    else
      var before, l := steps[..|steps| - 1], steps[|steps| - 1];
      if (l.Search? || l.Compare?) && l.w == w && Enabled(c, After(c, before), l) && l.found.Some? then
        After(c, before).docs[l.found.value].facts.manifest
      else Offered(c, before, w)
  }

  predicate Carries(pc: Pc, yielded: Option<string>, offered: Option<string>) {
    match pc
    case AtBorrow(loan, _) => loan.manifest == offered
    case AtComplete(_, outcome) => yielded == Some(outcome.manifest)
    case AtRecord(_, outcome) => yielded == Some(outcome.manifest)
    case _ => true
  }

  lemma CarriesStep(c: Config, s: State, l: Step, w: WorkerId, yielded: Option<string>, offered: Option<string>)
    requires Enabled(c, s, l) && w in Next(c, s, l).workers
    requires w in s.workers ==> Carries(s.workers[w].pc, yielded, offered)
    ensures Carries(Next(c, s, l).workers[w].pc,
      if l.LeavePipeline? && l.w == w then Some(l.outcome.manifest) else yielded,
      if (l.Search? || l.Compare?) && l.w == w && l.found.Some? then s.docs[l.found.value].facts.manifest else offered)
  {
  }

  // What a worker carries to its document is what its pipeline run yielded or its lookup found.
  lemma {:induction false} CarriesAfter(c: Config, steps: seq<Step>, w: WorkerId)
    requires w in After(c, steps).workers
    ensures Carries(After(c, steps).workers[w].pc, Yielded(c, steps, w), Offered(c, steps, w))
  {
    hide Next, Enabled, Carries;
    var before, l := steps[..|steps| - 1], steps[|steps| - 1];
    var s := After(c, before);
    if w in s.workers {
      CarriesAfter(c, before, w);
    }
    if Enabled(c, s, l) {
      CarriesStep(c, s, l, w, Yielded(c, before, w), Offered(c, before, w));
    }
  }

  // What a worker borrows was found on a document that was completed then.
  lemma {:induction false} BorrowsFromCompleted(c: Config, steps: seq<Step>, w: WorkerId)
    returns (i: nat, lender: DocId)
    requires w in After(c, steps).workers && After(c, steps).workers[w].pc.AtBorrow?
    ensures i < |steps| && (steps[i].Search? || steps[i].Compare?) && steps[i].w == w && steps[i].found == Some(lender)
    ensures lender in After(c, steps[..i]).docs && After(c, steps[..i]).docs[lender].status == Completed
    ensures After(c, steps).workers[w].pc.loan.manifest == After(c, steps[..i]).docs[lender].facts.manifest
    ensures After(c, steps).workers[w].pc.downloaded <==> steps[i].Compare?
  {
    var m := |steps| - 1;
    var s, l := After(c, steps[..m]), steps[m];
    if Enabled(c, s, l) && (l.Search? || l.Compare?) && l.w == w {
      i, lender := m, l.found.value;
    } else {
      i, lender := BorrowsFromCompleted(c, steps[..m], w);
      assert steps[..m][..i] == steps[..i];
    }
  }

  // The result that was last stored in d.
  ghost function LastStored(c: Config, steps: seq<Step>, d: DocId): Option<string> {
    if steps == [] then None
    else
      var before, l := steps[..|steps| - 1], steps[|steps| - 1];
      if !ByWorkerOf(c, After(c, before), l, d) then LastStored(c, before, d)
      else if l.Record? then Yielded(c, before, l.w)
      else if l.Borrow? && Offered(c, before, l.w).Some? then Offered(c, before, l.w)
      else LastStored(c, before, d)
  }

  lemma ManifestStep(c: Config, s: State, l: Step, d: DocId)
    requires Enabled(c, s, l)
    ensures OrNew(Next(c, s, l).docs, d).facts.manifest ==
      if ByWorkerOf(c, s, l, d) && l.Record? then Some(s.workers[l.w].pc.outcome.manifest)
      else if ByWorkerOf(c, s, l, d) && l.Borrow? && s.workers[l.w].pc.loan.manifest.Some? then
        s.workers[l.w].pc.loan.manifest
      else OrNew(s.docs, d).facts.manifest
  {
  }

  // Recording stores what the pipeline yielded to the worker, borrowing stores what the lender had, and
  // nothing else changes the result that a document carries.
  lemma {:induction false} ManifestIsLastStored(c: Config, steps: seq<Step>, d: DocId)
    ensures OrNew(After(c, steps).docs, d).facts.manifest == LastStored(c, steps, d)
  {
    hide Next, Enabled;
    if steps != [] {
      var before, l := steps[..|steps| - 1], steps[|steps| - 1];
      var s := After(c, before);
      ManifestIsLastStored(c, before, d);
      if Enabled(c, s, l) {
        ManifestStep(c, s, l, d);
        if ByWorkerOf(c, s, l, d) {
          TakerIsThere(c, s, l);
          CarriesAfter(c, before, l.w);
        }
      }
    }
  }

  lemma TakerIsThere(c: Config, s: State, l: Step)
    requires Enabled(c, s, l) && !l.Tick? && !l.Begin?
    ensures l.w in s.workers && s.workers[l.w].doc in s.docs && StepOf(s.workers[l.w].pc, l)
  {
  }

  // Whether the result of d's last completion is there.
  datatype Result =
    | NotCompleted
    | Awaited(w: WorkerId)    // the worker that completed d has not recorded its result yet, ...
    | Abandoned               // ... or has stopped or failed before it did
    | Recorded(manifest: Option<string>)
    | Lent(manifest: Option<string>)

  ghost function ResultOf(c: Config, steps: seq<Step>, d: DocId): Result {
    if steps == [] then NotCompleted
    else
      var before, l := steps[..|steps| - 1], steps[|steps| - 1];
      var result := ResultOf(c, before, d);
      if !ByWorkerOf(c, After(c, before), l, d) then result
      else if l.Complete? then Awaited(l.w)
      else if l.Record? then Result.Recorded(Yielded(c, before, l.w))
      else if l.Borrow? then Lent(Offered(c, before, l.w))
      else if (l.Crash? || l.Fail?) && result == Awaited(l.w) then Abandoned
      else result
  }

  ghost function WasLent(c: Config, steps: seq<Step>, d: DocId): bool {
    if steps == [] then false
    else
      var before, l := steps[..|steps| - 1], steps[|steps| - 1];
      WasLent(c, before, d)
      || (ByWorkerOf(c, After(c, before), l, d) && l.Borrow? && Offered(c, before, l.w).Some?)
  }

  // What a result says about the document and about who holds it.
  ghost predicate Says(s: State, result: Result, lent: bool, d: DocId) {
    var doc := OrNew(s.docs, d);
    && (forall w | w in s.workers && s.workers[w].doc == d && s.workers[w].pc.AtRecord? :: result == Awaited(w))
    && (result.Awaited? ==>
          result.w in s.workers && s.workers[result.w].doc == d && s.workers[result.w].pc.AtRecord?)
    && (result.NotCompleted? ==> doc.status != Completed)
    && (if result.Recorded? then
          && doc.status == Completed && doc.facts.manifest == result.manifest && result.manifest.Some?
          && forall w | w in s.workers :: s.workers[w].doc != d
        else doc.facts.manifest.Some? <==> lent)
    && (result.Lent? && result.manifest.Some? ==> doc.facts.manifest == result.manifest)
  }

  // Steps of the worker of d, ...
  lemma SaysOwnStep(c: Config, s: State, l: Step, d: DocId, result: Result, lent: bool,
                     yielded: Option<string>, offered: Option<string>)
    requires Exclusive(s) && Says(s, result, lent, d) && ByWorkerOf(c, s, l, d)
    requires l.w in s.workers && StepOf(s.workers[l.w].pc, l) && Carries(s.workers[l.w].pc, yielded, offered)
    ensures Says(Next(c, s, l),
      if l.Complete? then Awaited(l.w)
      else if l.Record? then Result.Recorded(yielded)
      else if l.Borrow? then Lent(offered)
      else if (l.Crash? || l.Fail?) && result == Awaited(l.w) then Abandoned
      else result,
      lent || (l.Borrow? && offered.Some?), d)
  {
  }

  // ... and all others.
  lemma SaysOtherStep(c: Config, s: State, l: Step, d: DocId, result: Result, lent: bool)
    requires Enabled(c, s, l) && Says(s, result, lent, d) && !ByWorkerOf(c, s, l, d)
    ensures Says(Next(c, s, l), result, lent, d)
  {
  }

  lemma {:induction false} SaysAfter(c: Config, steps: seq<Step>, d: DocId)
    requires Timely(c, steps)
    ensures Says(After(c, steps), ResultOf(c, steps, d), WasLent(c, steps, d), d)
  {
    hide Next, Enabled, Says, Carries;
    if steps == [] {
      NothingTold(d);
    } else {
      var before, l := steps[..|steps| - 1], steps[|steps| - 1];
      var s := After(c, before);
      SaysAfter(c, before, d);
      if Enabled(c, s, l) {
        if ByWorkerOf(c, s, l, d) {
          LeaseSafety(c, before);
          TakerIsThere(c, s, l);
          CarriesAfter(c, before, l.w);
          SaysOwnStep(c, s, l, d, ResultOf(c, before, d), WasLent(c, before, d),
            Yielded(c, before, l.w), Offered(c, before, l.w));
        } else {
          SaysOtherStep(c, s, l, d, ResultOf(c, before, d), WasLent(c, before, d));
        }
      }
    }
  }

  lemma NothingTold(d: DocId)
    ensures Says(START, NotCompleted, false, d)
  {
  }

  // In runs within the lease a completed document carries no result exactly when none was ever lent to it
  // and the worker that last completed it has yet to record one, or stopped or failed before it did, or
  // borrowed from a document without one.
  lemma CompletedWithoutResult(c: Config, steps: seq<Step>, d: DocId)
    requires Timely(c, steps) && OrNew(After(c, steps).docs, d).status == Completed
    ensures var s, result := After(c, steps), ResultOf(c, steps, d);
      && (s.docs[d].facts.manifest.None? <==>
            (result.Awaited? || result.Abandoned? || result == Lent(None)) && !WasLent(c, steps, d))
      && (result.Awaited? ==>
            result.w in s.workers && s.workers[result.w].doc == d && s.workers[result.w].pc.AtRecord?)
      && (result.Recorded? ==> result.manifest.Some? && s.docs[d].facts.manifest == result.manifest)
      && (result.Lent? && result.manifest.Some? ==> s.docs[d].facts.manifest == result.manifest)
  {
    SaysAfter(c, steps, d);
    if ResultOf(c, steps, d).Lent? && ResultOf(c, steps, d).manifest.Some? {
      LentIsLent(c, steps, d);
    }
  }

  lemma {:induction false} LentIsLent(c: Config, steps: seq<Step>, d: DocId)
    requires ResultOf(c, steps, d).Lent? && ResultOf(c, steps, d).manifest.Some?
    ensures WasLent(c, steps, d)
  {
    var before, l := steps[..|steps| - 1], steps[|steps| - 1];
    if !(ByWorkerOf(c, After(c, before), l, d) && l.Borrow?) {
      LentIsLent(c, before, d);
    }
  }

  ghost predicate OneCompletion(completions: nat, result: Result, lent: bool) {
    && (completions == 0 ==> result.NotCompleted? && !lent)
    && (completions == 1 ==> (lent <==> result.Lent? && result.manifest.Some?))
  }

  lemma {:induction false} OneCompletionAfter(c: Config, steps: seq<Step>, d: DocId)
    requires Timely(c, steps)
    ensures OneCompletion(Completions(After(c, steps).log, d), ResultOf(c, steps, d), WasLent(c, steps, d))
  {
    hide Next, Enabled, Carries;
    if steps != [] {
      var before, l := steps[..|steps| - 1], steps[|steps| - 1];
      var s := After(c, before);
      OneCompletionAfter(c, before, d);
      if Enabled(c, s, l) {
        CountStep(c, s, l, d);
        if ByWorkerOf(c, s, l, d) {
          TakerIsThere(c, s, l);
          SaysAfter(c, before, d);
        }
      }
    }
  }

  // So without a failure after a completing mark it carries none exactly in these three cases.
  lemma CompletedOnce(c: Config, steps: seq<Step>, d: DocId)
    requires Timely(c, steps) && OrNew(After(c, steps).docs, d).status == Completed
    requires Undone(After(c, steps).log, d) == 0
    ensures var result := ResultOf(c, steps, d);
      && (After(c, steps).docs[d].facts.manifest.None? <==>
            result.Awaited? || result.Abandoned? || result == Lent(None))
      && (result.Recorded? || result.Lent? ==> After(c, steps).docs[d].facts.manifest == result.manifest)
  {
    CompletedWithoutResult(c, steps, d);
    CompletionsCounted(c, steps, d);
    OneCompletionAfter(c, steps, d);
  }

  // Whatever happens after, no one writes to a completed or dead-lettered document that no one holds, and
  // no one is told to process it.
  lemma {:induction false} DoneForGood(c: Config, steps: seq<Step>, k: nat, d: DocId)
    requires k <= |steps|
    requires var s := After(c, steps[..k]);
      && (OrNew(s.docs, d).status == Completed || OrNew(s.docs, d).status == Dlq)
      && forall w | w in s.workers :: s.workers[w].doc != d
    ensures OrNew(After(c, steps).docs, d) == OrNew(After(c, steps[..k]).docs, d)
    ensures Grants(After(c, steps).log, d) == Grants(After(c, steps[..k]).log, d)
    ensures forall w | w in After(c, steps).workers :: After(c, steps).workers[w].doc != d
  {
    hide Next, Enabled;
    if k < |steps| {
      var m := |steps| - 1;
      var s, l := After(c, steps[..m]), steps[m];
      assert steps[..m][..k] == steps[..k];
      DoneForGood(c, steps[..m], k, d);
      if Enabled(c, s, l) {
        DoneStep(c, s, l, d);
        LogStep(c, s, l, d);
      }
    } else {
      assert steps[..k] == steps;
    }
  }

  lemma DoneStep(c: Config, s: State, l: Step, d: DocId)
    requires Enabled(c, s, l) && (forall w | w in s.workers :: s.workers[w].doc != d)
    requires OrNew(s.docs, d).status == Completed || OrNew(s.docs, d).status == Dlq
    ensures OrNew(Next(c, s, l).docs, d) == OrNew(s.docs, d)
    ensures forall w | w in Next(c, s, l).workers :: Next(c, s, l).workers[w].doc != d
    ensures !(l.Begin? && l.doc == d)
  {
  }

  // In runs within the lease no one holds a dead-lettered document.
  lemma DlqForGood(c: Config, steps: seq<Step>, k: nat, d: DocId)
    requires k <= |steps| && Timely(c, steps[..k]) && OrNew(After(c, steps[..k]).docs, d).status == Dlq
    ensures OrNew(After(c, steps).docs, d) == OrNew(After(c, steps[..k]).docs, d)
    ensures Grants(After(c, steps).log, d) == Grants(After(c, steps[..k]).log, d)
  {
    LeaseSafety(c, steps[..k]);
    DoneForGood(c, steps, k, d);
  }

  // A worker that stops before it records leaves a completed document without a result for good.
  lemma AbandonedExample() returns (c: Config, steps: seq<Step>, d: DocId)
    ensures Timely(c, steps) && After(c, steps).workers == map[]
    ensures OrNew(After(c, steps).docs, d).status == Completed
    ensures OrNew(After(c, steps).docs, d).facts.manifest == None
  {
    hide After, Prompt;
    var s;
    c, d := Config(0, 0), "d";
    Nothing(c);
    steps := Start(c, [], 0, d);
    steps := Prepare(c, steps, 0);
    steps := Finish(c, steps, 0, Outcome("m", None));
    steps, s := One(c, steps, Crash(0));
    PromptIsTimely(c, steps);
  }

  // What the last steps do to the document, in every reachable state.
  lemma RecordStores(c: Config, steps: seq<Step>, l: Step)
    requires Enabled(c, After(c, steps), l) && l.Record?
    ensures var s, t := After(c, steps), After(c, steps + [l]);
      var k := s.workers[l.w];
      var doc, before := t.docs[k.doc], s.docs[k.doc];
      && doc.facts.manifest == Yielded(c, steps, l.w) && doc.facts.manifest.Some? && doc.facts.pipelineMetrics
      && doc.status == before.status && doc.attempts == before.attempts && doc.updatedAt == before.updatedAt
      && (k.pc.outcome.durationMs.Some? ==> doc.facts.durationMs == k.pc.outcome.durationMs)
      && (k.pc.outcome.durationMs.None? ==> doc.facts.durationMs == before.facts.durationMs)
      && l.w !in t.workers
  {
    Last(c, steps, l);
    CarriesAfter(c, steps, l.w);
  }

  lemma BorrowStores(c: Config, steps: seq<Step>, l: Step)
    requires Enabled(c, After(c, steps), l) && l.Borrow?
    ensures var s, t := After(c, steps), After(c, steps + [l]);
      var d := s.workers[l.w].doc;
      && t.docs[d].status == Completed && t.docs[d].attempts == s.docs[d].attempts
      && t.docs[d].updatedAt == Some(s.now) && t.docs[d].facts.pipelineMetrics
      && (Offered(c, steps, l.w).Some? ==> t.docs[d].facts.manifest == Offered(c, steps, l.w))
      && (Offered(c, steps, l.w).None? ==> t.docs[d].facts.manifest == s.docs[d].facts.manifest)
      && t.workers == if s.workers[l.w].pc.downloaded then s.workers[l.w := s.workers[l.w].(pc := AtCleanup)]
                      else s.workers - {l.w}
  {
    Last(c, steps, l);
    CarriesAfter(c, steps, l.w);
  }

  // A permanent failure is final, and any other is not.
  lemma FailureMarks(c: Config, steps: seq<Step>, l: Step)
    requires Enabled(c, After(c, steps), l) && l.Fail?
    ensures var s, t := After(c, steps), After(c, steps + [l]);
      var d := s.workers[l.w].doc;
      && t.docs[d] == s.docs[d].(status := if l.kind.Permanent? then Dlq else Failed, updatedAt := Some(s.now))
      && l.w !in t.workers
  {
    Last(c, steps, l);
    if l.kind.Recoverable? {
      RecoverableIsNeverFinal(c, steps, l.w);
    }
  }

  // A worker may stop at any point and fail at any point after the cap was tested, ...
  lemma MayFail(c: Config, steps: seq<Step>, w: WorkerId, kind: Kind)
    ensures Enabled(c, After(c, steps), Crash(w)) <==> w in After(c, steps).workers
    ensures Enabled(c, After(c, steps), Fail(w, kind)) <==>
      && w in After(c, steps).workers
      && var pc := After(c, steps).workers[w].pc; !pc.AtNote? && !pc.AtCap? && !pc.AtGiveUp?
  {
    HeldIsThere(c, steps, w);
    hide Next, After;
  }

  lemma HeldIsThere(c: Config, steps: seq<Step>, w: WorkerId)
    ensures w in After(c, steps).workers ==> After(c, steps).workers[w].doc in After(c, steps).docs
  {
    hide Holds;
    SaneAfter(c, steps);
  }

  // ... and need not do either: there is always a step that leads it on.
  lemma NeverStuck(c: Config, steps: seq<Step>, w: WorkerId) returns (l: Step)
    requires w in After(c, steps).workers
    ensures Enabled(c, After(c, steps), l) && !l.Tick? && !l.Begin? && !l.Fail? && !l.Crash? && l.w == w
  {
    HeldIsThere(c, steps, w);
    hide Next, After;
    var k := After(c, steps).workers[w];
    var q := Query(Some(k.scopeKey), None, None, None, None, None, None, (x: string) => x);
    l := match k.pc
      case AtNote => NoteFails(w)
      case AtCap => CheckCap(w)
      case AtGiveUp => GiveUp(w)
      case AtSearch => Search(w, "", q, None)
      case AtBorrow(_, _) => Borrow(w)
      case AtCleanup => CleanUp(w)
      case AtDownload => Download(w, None)
      case AtCompare(_) => Compare(w, q, None)
      case AtEnter(_) => EnterPipeline(w)
      case InPipeline(_) => LeavePipeline(w, Outcome("", None))
      case AtComplete(_, _) => Complete(w)
      case AtRecord(_, _) => Record(w);
  }

  lemma Last(c: Config, steps: seq<Step>, l: Step)
    requires Enabled(c, After(c, steps), l)
    ensures After(c, steps + [l]) == Next(c, After(c, steps), l)
  {
    assert (steps + [l])[..|steps|] == steps;
  }

  lemma Nothing(c: Config)
    ensures After(c, []) == START && Prompt([])
  {
  }

  // What the other steps of a worker do to its document, and where the cap leads it.
  lemma StepsWrite(c: Config, now: Time, k: Worker, before: Doc, l: Step)
    requires StepOf(k.pc, l)
    ensures var doc := DocAfter(c, now, k, before, l);
      && (l.GiveUp? ==> doc == before.(status := Dlq, updatedAt := Some(now)))
      && (l.Complete? ==> doc == before.(status := Completed, updatedAt := Some(now)))
      && (l.Note? ==>
            doc.updatedAt == Some(now) && KeepsResults(before, doc) && Tells(doc.facts, before.facts, l.metadata))
      && (l.Download? && l.contentHash.Some? && l.contentHash.value != "" ==>
            && doc == before.(facts := doc.facts) && HasContentHash(doc, l.contentHash.value, Some(k.scopeKey))
            && doc.facts.contentHash == l.contentHash && doc.facts.manifest == before.facts.manifest)
      && (l.NoteFails? || l.CheckCap? || l.Search? || l.CleanUp? || l.Compare? || l.Crash? ==> doc == before)
      && (l.EnterPipeline? || l.LeavePipeline? ==> doc == before)
    ensures l.CheckCap? ==>
      PcAfter(c, map[], k, l) == if c.cap > 0 && k.attempt >= c.cap then Some(AtGiveUp) else Some(AtSearch)
  {
  }

  // One attempt that enters the pipeline and fails in it.
  lemma EnterAndFail(c: Config, steps: seq<Step>, w: WorkerId) returns (more: seq<Step>)
    requires var s := After(c, steps); w in s.workers && s.workers[w].doc in s.docs && s.workers[w].pc.AtEnter?
    ensures var s, t := After(c, steps), After(c, more);
      var k := s.workers[w];
      && t.workers == s.workers - {w} && t.now == s.now
      && t.docs == s.docs[k.doc := Marked(s.docs[k.doc], Failed, s.now)]
      && t.log == s.log + [Enter(k.doc, k.attempt)] + [Mark(k.doc, Failed)]
  {
    hide After;
    var s;
    more, s := One(c, steps, EnterPipeline(w));
    more, s := One(c, more, Fail(w, Unexpected));
  }

  lemma FailedAttempt(c: Config, steps: seq<Step>, d: DocId) returns (more: seq<Step>)
    requires var s := After(c, steps);
      && s.workers == map[] && (d in s.docs ==> s.docs[d].status == Failed)
      && !Capped(c, OrNew(s.docs, d).attempts + 1)
    ensures var s, t := After(c, steps), After(c, more);
      && t.workers == map[] && d in t.docs && t.docs[d].status == Failed
      && t.docs[d].attempts == OrNew(s.docs, d).attempts + 1
      && |Entries(t.log, d)| == |Entries(s.log, d)| + 1
  {
    hide After, Entries;
    var s := After(c, steps);
    var attempt := OrNew(s.docs, d).attempts + 1;
    more := Start(c, steps, 0, d);
    more := Prepare(c, more, 0);
    more := EnterAndFail(c, more, 0);
    OneEvent(Grant(d, attempt, s.now), d);
    OneEvent(Enter(d, attempt), d);
    OneEvent(Mark(d, Failed), d);
    LogAppend(s.log, [Grant(d, attempt, s.now)], d);
    LogAppend(s.log + [Grant(d, attempt, s.now)], [Enter(d, attempt)], d);
    LogAppend(s.log + [Grant(d, attempt, s.now)] + [Enter(d, attempt)], [Mark(d, Failed)], d);
  }

  // The pipeline can be entered as often as the cap allows, for each cap and document.
  lemma {:induction false} CapIsReached(c: Config, d: DocId, n: nat) returns (steps: seq<Step>)
    requires c.cap <= 0 || n < c.cap
    ensures var s := After(c, steps);
      && |Entries(s.log, d)| == n && s.workers == map[]
      && OrNew(s.docs, d).attempts == n && (d in s.docs ==> s.docs[d].status == Failed)
  {
    if n == 0 {
      steps := [];
    } else {
      steps := CapIsReached(c, d, n - 1);
      steps := FailedAttempt(c, steps, d);
    }
  }

  // From every reachable state a free document can be processed to its end, below the cap, and then
  // carries what the pipeline yielded.
  lemma StoresResult(c: Config, steps: seq<Step>, w: WorkerId, d: DocId, outcome: Outcome)
    returns (more: seq<Step>)
    requires var s := After(c, steps);
      w !in s.workers && Free(s.docs, d, s.now, c.ttl) && !Capped(c, OrNew(s.docs, d).attempts + 1)
    ensures steps <= more
    ensures var t := After(c, more);
      && w !in t.workers && d in t.docs && t.docs[d].status == Completed
      && t.docs[d].facts.manifest == Some(outcome.manifest)
  {
    hide After;
    var s;
    more := Start(c, steps, w, d);
    more := Prepare(c, more, w);
    more := Finish(c, more, w, outcome);
    more, s := One(c, more, Record(w));
  }

  lemma StartNoted(c: Config, steps: seq<Step>, w: WorkerId, d: DocId, m: Metadata, scopeKey: string)
    returns (more: seq<Step>)
    requires var s := After(c, steps);
      w !in s.workers && Free(s.docs, d, s.now, c.ttl) && !Capped(c, OrNew(s.docs, d).attempts + 1)
    ensures steps <= more
    ensures var s, t := After(c, steps), After(c, more);
      && t.docs == s.docs[d := Noted(Granted(OrNew(s.docs, d), s.now, None, ""), m, s.now)]
      && t.workers == s.workers[w := Worker(d, OrNew(s.docs, d).attempts + 1, s.now, scopeKey, true, AtSearch)]
  {
    hide After, Noted, EventsOf;
    var s;
    more, s := One(c, steps, Begin(w, d, scopeKey, true, None, ""));
    more, s := One(c, more, Note(w, m));
    more, s := One(c, more, CheckCap(w));
  }

  // Or it can be completed with the result of a document with the same checksum in its scope.
  lemma BorrowsResult(c: Config, steps: seq<Step>, w: WorkerId, d: DocId, lender: DocId, m: Metadata, q: Query)
    returns (more: seq<Step>)
    requires var s := After(c, steps);
      && w !in s.workers && Free(s.docs, d, s.now, c.ttl) && !Capped(c, OrNew(s.docs, d).attempts + 1)
      && Given(m.checksum) && q.scopeKey.Some? && lender in s.docs && MayLend(s.docs[lender], q)
      && HasChecksum(s.docs[lender], m.checksum.value, q.scopeKey)
    ensures steps <= more
    ensures var s, t := After(c, steps), After(c, more);
      && w !in t.workers && d in t.docs && t.docs[d].status == Completed
      && (s.docs[lender].facts.manifest.Some? ==> t.docs[d].facts.manifest == s.docs[lender].facts.manifest)
  {
    hide After;
    var s;
    more := StartNoted(c, steps, w, d, m, q.scopeKey.value);
    more, s := One(c, more, Search(w, m.checksum.value, q, Some(lender)));
    more, s := One(c, more, Borrow(w));
  }
}
