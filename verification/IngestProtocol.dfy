// Ingestion workers over the shared documents (gcp_adapter/ingestion_service.py and
// gcp_adapter/stream_ingest_service.py). A worker is one request, or one event of a batch, that was told
// to process a document. Workers take their steps in any order, and each may stop for good after any.

module IngestProtocol {
  import opened IdempotencyStore
  import opened Optionals

  // processing_ttl, and max_ingest_attempts; a cap that is not positive is none.
  datatype Config = Config(ttl: int, cap: int)

  type WorkerId = nat

  // What a worker does next.
  datatype Pc =
    | AtNote
    | AtCap
    | AtGiveUp
    | AtSearch
    | AtBorrow(loan: Loan, downloaded: bool)
    | AtCleanup    // of what was downloaded, once a loan has completed the document
    | AtDownload
    | AtCompare(contentHash: Option<string>)
    | AtEnter(contentHash: Option<string>)
    | InPipeline(contentHash: Option<string>)
    | AtComplete(contentHash: Option<string>, outcome: Outcome)
    | AtRecord(contentHash: Option<string>, outcome: Outcome)

  // http tells the worker of a request from that of a stream event.
  datatype Worker = Worker(doc: DocId, attempt: nat, since: Time, scopeKey: string, http: bool, pc: Pc)

  datatype Event =
    | Grant(doc: DocId, attempt: nat, at: Time)
    | Enter(doc: DocId, attempt: nat)
    | Produce(doc: DocId, manifest: string)
    | Mark(doc: DocId, status: Status)
    | Undo(doc: DocId)    // a failure after the completing mark

  datatype State = State(now: Time, docs: Docs, workers: map<WorkerId, Worker>, log: seq<Event>)

  datatype Kind = Permanent | Recoverable | Unexpected

  datatype Step =
    | Tick(dt: nat)
    | Begin(w: WorkerId, doc: DocId, scopeKey: string, http: bool, size: Option<int>, version: string)
    | Note(w: WorkerId, metadata: Metadata)
    | NoteFails(w: WorkerId)
    | CheckCap(w: WorkerId)
    | GiveUp(w: WorkerId)
    | Search(w: WorkerId, checksum: string, q: Query, found: Option<DocId>)
    | Borrow(w: WorkerId)
    | CleanUp(w: WorkerId)
    | Download(w: WorkerId, contentHash: Option<string>)
    | Compare(w: WorkerId, q: Query, found: Option<DocId>)
    | EnterPipeline(w: WorkerId)
    | LeavePipeline(w: WorkerId, outcome: Outcome)
    | Complete(w: WorkerId)
    | Record(w: WorkerId)
    | Fail(w: WorkerId, kind: Kind)    // an exception, and the handler's mark
    | Crash(w: WorkerId)

  // A lookup finds what the store's own lookups promise: a document that lends to the query, in the
  // worker's scope, with the checksum or the content hash asked for.
  ghost predicate Searching(s: State, k: Worker, checksum: string, q: Query, found: Option<DocId>) {
    q.scopeKey == Some(k.scopeKey) &&
    (found.Some? ==>
      && checksum != "" && found.value in s.docs && MayLend(s.docs[found.value], q)
      && HasChecksum(s.docs[found.value], checksum, q.scopeKey))
  }

  ghost predicate Comparing(s: State, k: Worker, contentHash: Option<string>, q: Query, found: Option<DocId>) {
    q.scopeKey == Some(k.scopeKey) &&
    (found.Some? ==>
      && Given(contentHash) && found.value in s.docs && MayLend(s.docs[found.value], q)
      && HasContentHash(s.docs[found.value], contentHash.value, q.scopeKey))
  }

  // The lookup and the copy are inside the handlers' reach; what comes before is not.
  predicate Guarded(pc: Pc) {
    !pc.AtNote? && !pc.AtCap? && !pc.AtGiveUp?
  }

  // The step that a worker takes next, as far as it is up to the worker.
  predicate StepOf(pc: Pc, l: Step) {
    match l
    case Tick(_) => false
    case Begin(_, _, _, _, _, _) => false
    case Note(_, _) => pc.AtNote?
    case NoteFails(_) => pc.AtNote?
    case CheckCap(_) => pc.AtCap?
    case GiveUp(_) => pc.AtGiveUp?
    case Search(_, _, _, _) => pc.AtSearch?
    case Borrow(_) => pc.AtBorrow?
    case CleanUp(_) => pc.AtCleanup?
    case Download(_, _) => pc.AtDownload?
    case Compare(_, _, _) => pc.AtCompare?
    case EnterPipeline(_) => pc.AtEnter?
    case LeavePipeline(_, _) => pc.InPipeline?
    case Complete(_) => pc.AtComplete?
    case Record(_) => pc.AtRecord?
    case Fail(_, _) => Guarded(pc)
    case Crash(_) => true
  }

  ghost predicate Finds(s: State, k: Worker, l: Step) {
    match l
    case Search(_, checksum, q, found) => Searching(s, k, checksum, q, found)
    case Compare(_, q, found) => k.pc.AtCompare? && Comparing(s, k, k.pc.contentHash, q, found)
    case _ => true
  }

  ghost predicate Enabled(c: Config, s: State, l: Step) {
    match l
    case Tick(_) => true
    case Begin(w, doc, _, _, _, _) => w !in s.workers && Free(s.docs, doc, s.now, c.ttl)
    case _ =>
      && l.w in s.workers && s.workers[l.w].doc in s.docs
      && StepOf(s.workers[l.w].pc, l) && Finds(s, s.workers[l.w], l)
  }

  // The worker has completed its document and is not done yet.
  predicate AfterMark(pc: Pc) {
    pc.AtRecord? || pc.AtCleanup?
  }

  // The attempt that is at the cap is not made.
  predicate Capped(c: Config, attempt: nat) {
    c.cap > 0 && attempt >= c.cap
  }

  // The handlers' mark. At the cap a recoverable failure of a request is final.
  function FailureStatus(c: Config, k: Worker, kind: Kind): Status {
    match kind
    case Permanent => Dlq
    case Recoverable => if k.http && Capped(c, k.attempt) then Dlq else Failed
    case Unexpected => Failed
  }

  // What a step of the worker k does to its document, ...
  function DocAfter(c: Config, now: Time, k: Worker, doc: Doc, l: Step): Doc
    requires StepOf(k.pc, l)
  {
    match l
    case Note(_, metadata) => Noted(doc, metadata, now)
    case GiveUp(_) => Marked(doc, Dlq, now)
    case Borrow(_) => Deduped(doc, k.pc.loan, k.scopeKey, now)
    case Download(_, contentHash) =>
      if Given(contentHash) then Hashed(doc, contentHash.value, k.scopeKey) else doc
    case Complete(_) => Marked(doc, Completed, now)
    case Record(_) => Recorded(doc, k.pc.outcome, k.pc.contentHash, k.scopeKey)
    case Fail(_, kind) => Marked(doc, FailureStatus(c, k, kind), now)
    case _ => doc
  }

  // ... where it leaves the worker, if it is not done, ...
  function PcAfter(c: Config, docs: Docs, k: Worker, l: Step): Option<Pc>
    requires StepOf(k.pc, l)
  {
    match l
    case Note(_, _) => Some(AtCap)
    case NoteFails(_) => Some(AtCap)
    case CheckCap(_) => Some(if Capped(c, k.attempt) then AtGiveUp else AtSearch)
    case Search(_, _, q, found) =>
      Some(if found.Some? && found.value in docs then AtBorrow(LoanOf(docs[found.value], q, None), false)
           else AtDownload)
    case Borrow(_) => if k.pc.downloaded then Some(AtCleanup) else None
    case Download(_, contentHash) => Some(AtCompare(contentHash))
    case Compare(_, q, found) =>
      Some(if found.Some? && found.value in docs
           then AtBorrow(LoanOf(docs[found.value], q, k.pc.contentHash), true)
           else AtEnter(k.pc.contentHash))
    case EnterPipeline(_) => Some(InPipeline(k.pc.contentHash))
    case LeavePipeline(_, outcome) => Some(AtComplete(k.pc.contentHash, outcome))
    case Complete(_) => Some(AtRecord(k.pc.contentHash, k.pc.outcome))
    case _ => None
  }

  // ... and what is to be remembered of it.
  function EventsOf(c: Config, k: Worker, l: Step): seq<Event> {
    match l
    case GiveUp(_) => [Mark(k.doc, Dlq)]
    case Borrow(_) => [Mark(k.doc, Completed)]
    case EnterPipeline(_) => [Enter(k.doc, k.attempt)]
    case LeavePipeline(_, outcome) => [Produce(k.doc, outcome.manifest)]
    case Complete(_) => [Mark(k.doc, Completed)]
    case Fail(_, kind) => (if AfterMark(k.pc) then [Undo(k.doc)] else []) + [Mark(k.doc, FailureStatus(c, k, kind))]
    case _ => []
  }

  function Next(c: Config, s: State, l: Step): State
    requires Enabled(c, s, l)
  {
    match l
    case Tick(dt) => s.(now := s.now + dt)
    case Begin(w, doc, scopeKey, http, size, version) =>
      var granted := Granted(OrNew(s.docs, doc), s.now, size, version);
      State(s.now, s.docs[doc := granted],
        s.workers[w := Worker(doc, granted.attempts, s.now, scopeKey, http, AtNote)],
        s.log + [Grant(doc, granted.attempts, s.now)])
    case _ =>
      var k := s.workers[l.w];
      var pc := PcAfter(c, s.docs, k, l);
      State(s.now, s.docs[k.doc := DocAfter(c, s.now, k, s.docs[k.doc], l)],
        if pc.Some? then s.workers[l.w := k.(pc := pc.value)] else s.workers - {l.w},
        s.log + EventsOf(c, k, l))
  }

  const START := State(0, map[], map[], [])

  // The state after any steps at all; one that cannot be taken is passed over.
  ghost function After(c: Config, steps: seq<Step>): State {
    if steps == [] then START else Then(c, After(c, steps[..|steps| - 1]), steps[|steps| - 1])
  }

  ghost function Then(c: Config, s: State, l: Step): State {
    if Enabled(c, s, l) then Next(c, s, l) else s
  }

  function NewEvents(c: Config, s: State, l: Step): seq<Event>
    requires Enabled(c, s, l)
  {
    match l
    case Tick(_) => []
    case Begin(_, doc, _, _, _, _) => [Grant(doc, OrNew(s.docs, doc).attempts + 1, s.now)]
    case _ => EventsOf(c, s.workers[l.w], l)
  }

  lemma LogGrows(c: Config, s: State, l: Step)
    requires Enabled(c, s, l)
    ensures Next(c, s, l).log == s.log + NewEvents(c, s, l)
  {
  }
}
