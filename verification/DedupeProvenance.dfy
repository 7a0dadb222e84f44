// Where the results that documents carry come from (gcp_adapter/ingestion_service.py and
// gcp_adapter/idempotency_firestore.py): through any chain of copies, from a pipeline run on an object of
// the same scope with the same content.

module DedupeProvenance {
  import opened DedupeKeys
  import opened IdempotencyStore
  import opened IngestProtocol
  import opened Optionals

  type Content = string

  // The object behind each document, and the hashes.
  datatype World = World(
    scope: DocId -> Scope,
    content: DocId -> Content,
    hash: Content -> string,
    isChecksum: (DocId, string) -> bool)    // a checksum that the object or an event for it may carry

  ghost predicate CollisionFree(x: World) {
    && (forall a, b :: x.hash(a) == x.hash(b) ==> a == b)
    && (forall d, e, c | x.isChecksum(d, c) && x.isChecksum(e, c) :: x.content(d) == x.content(e))
    && (forall a :: x.hash(a) != "")
    && (forall d, c | x.isChecksum(d, c) :: c != "")
    && (forall d :: Clean(x.scope(d)))
  }

  function Key(x: World, d: DocId): string {
    ScopeKey(x.scope(d))
  }

  predicate SameObject(x: World, d: DocId, e: DocId) {
    Normal(x.scope(d)) == Normal(x.scope(e)) && x.content(d) == x.content(e)
  }

  // What the worker of d says about its object is so.
  predicate Truthful(x: World, s: State, l: Step) {
    match l
    case Begin(_, d, scopeKey, _, _, _) => scopeKey == Key(x, d)
    case Note(w, m) =>
      w in s.workers ==>
        && m.scopeKey == Some(Key(x, s.workers[w].doc))
        && (m.checksum.Some? ==> x.isChecksum(s.workers[w].doc, m.checksum.value))
    case Search(w, checksum, _, found) => w in s.workers && found.Some? ==> x.isChecksum(s.workers[w].doc, checksum)
    case Download(w, contentHash) =>
      w in s.workers && contentHash.Some? ==> contentHash.value == x.hash(x.content(s.workers[w].doc))
    case _ => true
  }

  ghost predicate TruthfulRun(x: World, c: Config, steps: seq<Step>) {
    steps != [] ==>
      && TruthfulRun(x, c, steps[..|steps| - 1])
      && Truthful(x, After(c, steps[..|steps| - 1]), steps[|steps| - 1])
  }

  // The pipeline yielded the manifest from an object of the same scope with the same content as d's.
  ghost predicate Produced(x: World, log: seq<Event>, manifest: string, d: DocId) {
    exists i | 0 <= i < |log| :: log[i].Produce? && log[i].manifest == manifest && SameObject(x, log[i].doc, d)
  }

  ghost predicate HashFits(x: World, contentHash: Option<string>, d: DocId) {
    Given(contentHash) ==> contentHash.value == x.hash(x.content(d))
  }

  ghost predicate ManifestFits(x: World, log: seq<Event>, manifest: Option<string>, d: DocId) {
    manifest.Some? ==> Produced(x, log, manifest.value, d)
  }

  ghost predicate ChecksumFits(x: World, checksumScope: Option<string>, d: DocId) {
    exists c :: x.isChecksum(d, c) && checksumScope == Scoped(Some(c), Some(Key(x, d)))
  }

  ghost predicate FactsFit(x: World, log: seq<Event>, f: Facts, d: DocId) {
    && (f.scopeKey.Some? ==> f.scopeKey.value == Key(x, d))
    && (f.checksumScope.Some? ==> ChecksumFits(x, f.checksumScope, d))
    && (f.contentHashScope.Some? ==> f.contentHashScope == Scoped(Some(x.hash(x.content(d))), Some(Key(x, d))))
    && HashFits(x, f.contentHash, d)
    && ManifestFits(x, log, f.manifest, d)
  }

  ghost predicate PcFits(x: World, log: seq<Event>, pc: Pc, d: DocId) {
    match pc
    case AtBorrow(loan, _) => HashFits(x, loan.contentHash, d) && ManifestFits(x, log, loan.manifest, d)
    case AtCompare(h) => HashFits(x, h, d)
    case AtEnter(h) => HashFits(x, h, d)
    case InPipeline(h) => HashFits(x, h, d)
    case AtComplete(h, outcome) => HashFits(x, h, d) && Produced(x, log, outcome.manifest, d)
    case AtRecord(h, outcome) => HashFits(x, h, d) && Produced(x, log, outcome.manifest, d)
    case _ => true
  }

  ghost predicate WorkerFits(x: World, log: seq<Event>, k: Worker) {
    k.scopeKey == Key(x, k.doc) && PcFits(x, log, k.pc, k.doc)
  }

  ghost predicate Traced(x: World, s: State) {
    && (forall d | d in s.docs :: FactsFit(x, s.log, s.docs[d].facts, d))
    && (forall w | w in s.workers :: WorkerFits(x, s.log, s.workers[w]))
  }

  lemma ProducedBefore(x: World, log: seq<Event>, more: seq<Event>, manifest: string, d: DocId)
    requires log <= more && Produced(x, log, manifest, d)
    ensures Produced(x, more, manifest, d)
  {
    var i :| 0 <= i < |log| && log[i].Produce? && log[i].manifest == manifest && SameObject(x, log[i].doc, d);
    assert more[i] == log[i];
  }

  lemma ProducedForSame(x: World, log: seq<Event>, manifest: Option<string>, d: DocId, e: DocId)
    requires SameObject(x, d, e) && ManifestFits(x, log, manifest, d)
    ensures ManifestFits(x, log, manifest, e)
  {
    if manifest.Some? {
      var i :| 0 <= i < |log| && log[i].Produce? && log[i].manifest == manifest.value && SameObject(x, log[i].doc, d);
      assert SameObject(x, log[i].doc, e);
    }
  }

  lemma KeyIsNotEmpty(x: World, d: DocId)
    ensures Key(x, d) != "" && Some(Key(x, d)) != None
  {
    assert |Key(x, d)| >= 2;
  }

  // A document found under a checksum or the content hash of d is about the same object.
  lemma FoundIsSame(x: World, log: seq<Event>, lender: Doc, a: DocId, d: DocId, checksum: string)
    requires CollisionFree(x) && FactsFit(x, log, lender.facts, a) && lender.facts.scopeKey == Some(Key(x, d))
    requires
      || (x.isChecksum(d, checksum) && HasChecksum(lender, checksum, Some(Key(x, d))))
      || HasContentHash(lender, x.hash(x.content(d)), Some(Key(x, d)))
    ensures SameObject(x, a, d)
  {
    KeyIsNotEmpty(x, d);
    ScopeKeyIdentifies(x.scope(a), x.scope(d));
    if HasContentHash(lender, x.hash(x.content(d)), Some(Key(x, d))) {
      ScopedIdentifies(x.hash(x.content(a)), x.hash(x.content(d)), Key(x, d));
    } else {
      assert ChecksumFits(x, lender.facts.checksumScope, a);
      var c :| x.isChecksum(a, c) && lender.facts.checksumScope == Scoped(Some(c), Some(Key(x, a)));
      ScopedIdentifies(c, checksum, Key(x, d));
    }
  }

  lemma LoanFits(
    x: World, s: State, w: WorkerId, lender: DocId, q: Query, contentHash: Option<string>, checksum: string)
    requires CollisionFree(x) && Traced(x, s) && w in s.workers && lender in s.docs
    requires q.scopeKey == Some(s.workers[w].scopeKey) && MayLend(s.docs[lender], q)
    requires
      || (x.isChecksum(s.workers[w].doc, checksum) && HasChecksum(s.docs[lender], checksum, q.scopeKey))
      || HasContentHash(s.docs[lender], x.hash(x.content(s.workers[w].doc)), q.scopeKey)
    requires HashFits(x, contentHash, s.workers[w].doc)
    ensures HashFits(x, LoanOf(s.docs[lender], q, contentHash).contentHash, s.workers[w].doc)
    ensures ManifestFits(x, s.log, s.docs[lender].facts.manifest, s.workers[w].doc)
  {
    var d := s.workers[w].doc;
    assert WorkerFits(x, s.log, s.workers[w]);
    KeyIsNotEmpty(x, d);
    FoundIsSame(x, s.log, s.docs[lender], lender, d, checksum);
    ProducedForSame(x, s.log, s.docs[lender].facts.manifest, lender, d);
  }

  // A longer log changes nothing about what fits.
  lemma FactsFitLater(x: World, log: seq<Event>, more: seq<Event>, f: Facts, d: DocId)
    requires log <= more && FactsFit(x, log, f, d)
    ensures FactsFit(x, more, f, d)
  {
    if f.manifest.Some? {
      ProducedBefore(x, log, more, f.manifest.value, d);
    }
  }

  lemma WorkerFitsLater(x: World, log: seq<Event>, more: seq<Event>, k: Worker)
    requires log <= more && WorkerFits(x, log, k)
    ensures WorkerFits(x, more, k)
  {
    match k.pc {
      case AtBorrow(loan, _) =>
        if loan.manifest.Some? {
          ProducedBefore(x, log, more, loan.manifest.value, k.doc);
        }
      case AtComplete(_, outcome) =>
        ProducedBefore(x, log, more, outcome.manifest, k.doc);
      case AtRecord(_, outcome) =>
        ProducedBefore(x, log, more, outcome.manifest, k.doc);
      case _ =>
    }
  }

  // Where a step leaves the worker that takes it.
  lemma SearchFits(x: World, s: State, l: Step)
    requires CollisionFree(x) && Traced(x, s) && l.Search? && l.w in s.workers && l.found.Some?
    requires Searching(s, s.workers[l.w], l.checksum, l.q, l.found) && Truthful(x, s, l)
    ensures PcFits(x, s.log, AtBorrow(LoanOf(s.docs[l.found.value], l.q, None), false), s.workers[l.w].doc)
  {
    LoanFits(x, s, l.w, l.found.value, l.q, None, l.checksum);
  }

  lemma CompareFits(x: World, s: State, l: Step)
    requires CollisionFree(x) && Traced(x, s) && l.Compare? && l.w in s.workers && l.found.Some?
    requires s.workers[l.w].pc.AtCompare?
    requires Comparing(s, s.workers[l.w], s.workers[l.w].pc.contentHash, l.q, l.found)
    ensures var loan := LoanOf(s.docs[l.found.value], l.q, s.workers[l.w].pc.contentHash);
      PcFits(x, s.log, AtBorrow(loan, true), s.workers[l.w].doc)
  {
    assert WorkerFits(x, s.log, s.workers[l.w]);
    LoanFits(x, s, l.w, l.found.value, l.q, s.workers[l.w].pc.contentHash, "");
  }

  lemma TakerFits(x: World, c: Config, s: State, l: Step)
    requires CollisionFree(x) && Traced(x, s) && Truthful(x, s, l)
    requires !l.Tick? && !l.Begin? && l.w in s.workers && StepOf(s.workers[l.w].pc, l) && Finds(s, s.workers[l.w], l)
    requires PcAfter(c, s.docs, s.workers[l.w], l).Some?
    ensures var k := s.workers[l.w]; PcFits(x, s.log + EventsOf(c, k, l), PcAfter(c, s.docs, k, l).value, k.doc)
  {
    hide CollisionFree, Searching, Comparing, LoanOf;
    var k := s.workers[l.w];
    var more := s.log + EventsOf(c, k, l);
    assert WorkerFits(x, s.log, k);
    WorkerFitsLater(x, s.log, more, k);
    match l {
      case Search(_, _, q, found) =>
        if found.Some? {
          SearchFits(x, s, l);
        }
      case Compare(_, q, found) =>
        if found.Some? {
          CompareFits(x, s, l);
        }
      case LeavePipeline(_, outcome) =>
        assert more[|s.log|] == Produce(k.doc, outcome.manifest);
        assert SameObject(x, k.doc, k.doc);
      case _ =>
    }
  }

  lemma TakerStays(x: World, c: Config, s: State, l: Step)
    requires CollisionFree(x) && Traced(x, s) && Enabled(c, s, l) && Truthful(x, s, l) && !l.Tick?
    requires l.w in Next(c, s, l).workers
    ensures WorkerFits(x, Next(c, s, l).log, Next(c, s, l).workers[l.w])
  {
    hide PcFits, PcAfter, EventsOf, DocAfter, CollisionFree;
    if l.Begin? {
      NewcomerFits(x, Next(c, s, l).log, Next(c, s, l).workers[l.w]);
    } else {
      assert WorkerFits(x, s.log, s.workers[l.w]);
      TakerFits(x, c, s, l);
    }
  }

  lemma NewcomerFits(x: World, log: seq<Event>, k: Worker)
    requires k.scopeKey == Key(x, k.doc) && k.pc.AtNote?
    ensures WorkerFits(x, log, k)
  {
  }

  lemma OthersFit(x: World, c: Config, s: State, l: Step, w: WorkerId)
    requires Traced(x, s) && Enabled(c, s, l)
    requires w in Next(c, s, l).workers && (l.Tick? || w != l.w)
    ensures WorkerFits(x, Next(c, s, l).log, Next(c, s, l).workers[w])
  {
    LogGrows(c, s, l);
    assert WorkerFits(x, s.log, s.workers[w]);
    WorkerFitsLater(x, s.log, Next(c, s, l).log, s.workers[w]);
  }

  // What a step writes to its worker's document.
  lemma WrittenFits(x: World, c: Config, s: State, l: Step, log: seq<Event>, k: Worker, doc: Doc)
    requires StepOf(k.pc, l) && WorkerFits(x, log, k) && FactsFit(x, log, doc.facts, k.doc)
    requires l.Note? ==> l.metadata.scopeKey == Some(Key(x, k.doc))
    requires l.Note? && l.metadata.checksum.Some? ==> x.isChecksum(k.doc, l.metadata.checksum.value)
    requires l.Download? && l.contentHash.Some? ==> l.contentHash.value == x.hash(x.content(k.doc))
    ensures FactsFit(x, log, DocAfter(c, s.now, k, doc, l).facts, k.doc)
  {
    hide Produced, ScopeKey;
    KeyIsNotEmpty(x, k.doc);
  }

  lemma DocFits(x: World, c: Config, s: State, l: Step, d: DocId)
    requires Traced(x, s) && Enabled(c, s, l) && Truthful(x, s, l) && d in Next(c, s, l).docs
    ensures FactsFit(x, Next(c, s, l).log, Next(c, s, l).docs[d].facts, d)
  {
    hide FactsFit, WorkerFits, DocAfter, PcAfter, EventsOf;
    LogGrows(c, s, l);
    var more := Next(c, s, l).log;
    if d in s.docs {
      FactsFitLater(x, s.log, more, s.docs[d].facts, d);
      if l.Begin? {
        GrantFits(x, more, s.docs[d], s.now, l.size, l.version, d);
      } else if !l.Tick? {
        var k := s.workers[l.w];
        WorkerFitsLater(x, s.log, more, k);
        FactsFitLater(x, s.log, more, s.docs[k.doc].facts, k.doc);
        WrittenFits(x, c, s, l, more, k, s.docs[k.doc]);
      }
    } else {
      NoFactsFit(x, more, d);
      GrantFits(x, more, NO_DOC, s.now, l.size, l.version, d);
    }
  }

  lemma NoFactsFit(x: World, log: seq<Event>, d: DocId)
    ensures FactsFit(x, log, NO_FACTS, d)
  {
  }

  lemma GrantFits(x: World, log: seq<Event>, doc: Doc, now: Time, size: Option<int>, version: string, d: DocId)
    requires FactsFit(x, log, doc.facts, d)
    ensures FactsFit(x, log, Granted(doc, now, size, version).facts, d)
  {
  }

  lemma TracedStep(x: World, c: Config, s: State, l: Step)
    requires CollisionFree(x) && Traced(x, s) && Enabled(c, s, l) && Truthful(x, s, l)
    ensures Traced(x, Next(c, s, l))
  {
    hide Next;
    var t := Next(c, s, l);
    forall d | d in t.docs
      ensures FactsFit(x, t.log, t.docs[d].facts, d)
    {
      DocFits(x, c, s, l, d);
    }
    forall w | w in t.workers
      ensures WorkerFits(x, t.log, t.workers[w])
    {
      if l.Tick? || w != l.w {
        OthersFit(x, c, s, l, w);
      } else {
        TakerStays(x, c, s, l);
      }
    }
  }

  lemma {:induction false} TracedAfter(x: World, c: Config, steps: seq<Step>)
    requires CollisionFree(x) && TruthfulRun(x, c, steps)
    ensures Traced(x, After(c, steps))
  {
    if steps != [] {
      var s, l := After(c, steps[..|steps| - 1]), steps[|steps| - 1];
      TracedAfter(x, c, steps[..|steps| - 1]);
      if Enabled(c, s, l) {
        TracedStep(x, c, s, l);
      }
    }
  }

  // In every reachable state a manifest that a document carries was yielded by a pipeline run on an
  // object of the same scope with the same content, however often it was copied from one document to
  // the next.
  lemma Provenance(x: World, c: Config, steps: seq<Step>, d: DocId)
    requires CollisionFree(x) && TruthfulRun(x, c, steps)
    requires d in After(c, steps).docs && After(c, steps).docs[d].facts.manifest.Some?
    ensures Produced(x, After(c, steps).log, After(c, steps).docs[d].facts.manifest.value, d)
  {
    TracedAfter(x, c, steps);
  }
}
