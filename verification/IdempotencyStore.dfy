// The documents that make ingestion idempotent and that cache its results
// (gcp_adapter/idempotency_firestore.py). Each method is one atomic access to the document store; the
// functions beside them say what it does to the one document it touches.

module IdempotencyStore {
  import opened DedupeKeys
  import opened Optionals
  import opened Sequences

  type DocId = string
  type Time = int

  datatype Status = Processing | Completed | Failed | Dlq | Unknown

  datatype Doc = Doc(
    status: Status,
    attempts: nat,
    updatedAt: Option<Time>,
    facts: Facts)

  datatype Facts = Facts(
    bucket: Option<string>,
    name: Option<string>,
    scopeKey: Option<string>,
    checksum: Option<string>,
    checksumScope: Option<string>,
    contentHash: Option<string>,
    contentHashScope: Option<string>,
    sizeBytes: Option<int>,
    objectSize: Option<int>,
    contentType: Option<string>,
    durationMs: Option<int>,
    version: Option<string>,
    manifest: Option<string>,
    pipelineMetrics: bool)

  const NO_FACTS := Facts(None, None, None, None, None, None, None, None, None, None, None, None, None, false)

  const NO_DOC := Doc(Unknown, 0, None, NO_FACTS)

  datatype Action = Process | SkipCompleted | SkipProcessing

  datatype Decision = Decision(action: Action, status: Status, attempts: nat)

  type Docs = map<DocId, Doc>

  // The later value where there is one.
  function Over<T>(later: Option<T>, earlier: Option<T>): Option<T> {
    if later.Some? then later else earlier
  }

  // There, and not empty.
  predicate Given(text: Option<string>): (given: bool)
    ensures given <==> text.Some? && |text.value| > 0
  {
    PartOr(text, "") != ""
  }

  function OrNew(docs: Docs, id: DocId): Doc {
    if id in docs then docs[id] else NO_DOC
  }

  // Someone holds the document, and wrote to it within the last ttl.
  predicate Leased(doc: Doc, now: Time, ttl: int) {
    doc.status == Processing && doc.updatedAt.Some? && doc.updatedAt.value >= now - ttl
  }

  predicate Final(status: Status) {
    status == Completed || status == Dlq
  }

  // When a worker is told to process a document.
  predicate Free(docs: Docs, id: DocId, now: Time, ttl: int) {
    id in docs ==> !Final(docs[id].status) && !Leased(docs[id], now, ttl)
  }

  function Granted(doc: Doc, now: Time, size: Option<int>, version: string): Doc {
    Doc(Processing, doc.attempts + 1, Some(now), doc.facts.(objectSize := size, version := Some(version)))
  }

  function Marked(doc: Doc, status: Status, now: Time): Doc {
    doc.(status := status, updatedAt := Some(now))
  }

  // What a request tells about its object.
  datatype Metadata = Metadata(
    bucket: string,
    name: string,
    checksum: Option<string>,    // from the event, else from the object itself, if it can be had
    contentType: Option<string>,
    sizeBytes: Option<int>,
    durationMs: Option<int>,
    scopeKey: Option<string>)

  function Noted(doc: Doc, m: Metadata, now: Time): Doc {
    var f := doc.facts;
    var known := Given(m.checksum);
    doc.(updatedAt := Some(now), facts := f.(
      bucket := Some(m.bucket), name := Some(m.name),
      scopeKey := if Given(m.scopeKey) then m.scopeKey else f.scopeKey,
      contentType := if Given(m.contentType) then m.contentType else f.contentType,
      sizeBytes := Over(m.sizeBytes, f.sizeBytes),
      durationMs := Over(m.durationMs, f.durationMs),
      checksum := if known then m.checksum else f.checksum,
      checksumScope := if known then Scoped(m.checksum, m.scopeKey) else f.checksumScope))
  }

  // Neither where a document stands nor what was cached in it has changed.
  predicate KeepsResults(before: Doc, doc: Doc) {
    var f, g := doc.facts, before.facts;
    && doc.status == before.status && doc.attempts == before.attempts
    && f.manifest == g.manifest && f.contentHash == g.contentHash && f.contentHashScope == g.contentHashScope
    && f.version == g.version && f.objectSize == g.objectSize && f.pipelineMetrics == g.pipelineMetrics
  }

  // What is told is there, what is not told is as before, and a checksum comes with its scope.
  predicate Tells(f: Facts, before: Facts, m: Metadata) {
    && f.bucket == Some(m.bucket) && f.name == Some(m.name)
    && f.sizeBytes == Over(m.sizeBytes, before.sizeBytes) && f.durationMs == Over(m.durationMs, before.durationMs)
    && (if Given(m.scopeKey) then f.scopeKey == m.scopeKey else f.scopeKey == before.scopeKey)
    && (if Given(m.contentType) then f.contentType == m.contentType else f.contentType == before.contentType)
    && (if Given(m.checksum) then ChecksumAt(f, m.checksum.value, m.scopeKey)
        else f.checksum == before.checksum && f.checksumScope == before.checksumScope)
  }

  lemma NotedKeeps(doc: Doc, m: Metadata, now: Time)
    ensures KeepsResults(doc, Noted(doc, m, now)) && Tells(Noted(doc, m, now).facts, doc.facts, m)
  {
  }

  // The hash of the downloaded bytes.
  function Hashed(doc: Doc, contentHash: string, scopeKey: string): Doc {
    doc.(facts := doc.facts.(
      contentHash := Some(contentHash), contentHashScope := Scoped(Some(contentHash), Some(scopeKey))))
  }

  // What a completed document lends to another one.
  datatype Loan = Loan(
    contentHash: Option<string>,
    sizeBytes: Option<int>,
    contentType: Option<string>,
    durationMs: Option<int>,
    manifest: Option<string>)

  function Deduped(doc: Doc, loan: Loan, scopeKey: string, now: Time): Doc {
    var f := doc.facts;
    var hashed := Given(loan.contentHash);
    Doc(Completed, doc.attempts, Some(now), f.(
      contentHash := if hashed then loan.contentHash else f.contentHash,
      contentHashScope := if hashed then Scoped(loan.contentHash, Some(scopeKey)) else f.contentHashScope,
      sizeBytes := Over(loan.sizeBytes, f.sizeBytes),
      contentType := if Given(loan.contentType) then loan.contentType else f.contentType,
      durationMs := Over(loan.durationMs, f.durationMs),
      manifest := Over(loan.manifest, f.manifest),
      pipelineMetrics := true))
  }

  // What the pipeline yields.
  datatype Outcome = Outcome(manifest: string, durationMs: Option<int>)

  function Recorded(doc: Doc, outcome: Outcome, contentHash: Option<string>, scopeKey: string): Doc {
    var hashed := if Given(contentHash) then Hashed(doc, contentHash.value, scopeKey) else doc;
    hashed.(facts := hashed.facts.(
      manifest := Some(outcome.manifest), durationMs := Over(outcome.durationMs, doc.facts.durationMs),
      pipelineMetrics := true))
  }

  // What a document must agree with to lend its result. The media type of a content type, without its
  // parameters and in lower case, is a parameter.
  datatype Query = Query(
    scopeKey: Option<string>,
    sizeBytes: Option<int>,
    contentType: Option<string>,
    durationMs: Option<int>,
    version: Option<string>,
    bucket: Option<string>,
    name: Option<string>,
    mediaType: string -> string)

  predicate Agrees<T(==)>(asked: Option<T>, stored: Option<T>) {
    asked.Some? ==> stored == asked
  }

  predicate AgreesIfStored(asked: Option<int>, stored: Option<int>) {
    asked.Some? && stored.Some? ==> stored == asked
  }

  predicate Lends(doc: Doc, q: Query): (lends: bool)
    ensures lends <==> MayLend(doc, q)
  {
    && doc.status == Completed
    && (Given(q.scopeKey) ==> doc.facts.scopeKey == q.scopeKey)
    && (Given(q.version) ==> doc.facts.version == q.version)
    && AgreesIfStored(q.sizeBytes, Over(doc.facts.sizeBytes, doc.facts.objectSize))
    && (Given(q.contentType) && Given(doc.facts.contentType) ==>
          q.mediaType(doc.facts.contentType.value) == q.mediaType(q.contentType.value))
    && AgreesIfStored(q.durationMs, doc.facts.durationMs)
    && Agrees(q.bucket, doc.facts.bucket)
    && Agrees(q.name, doc.facts.name)
  }

  // What a lookup promises of what it finds: completed, of the scope and of the version that are asked for,
  // in the bucket and of the name that are asked for, and with no size, media type or duration of its own
  // that differs from one that is asked for.
  ghost predicate MayLend(doc: Doc, q: Query) {
    var f := doc.facts;
    && doc.status == Completed
    && (q.scopeKey.None? || q.scopeKey.value == "" || f.scopeKey == q.scopeKey)
    && (q.version.None? || q.version.value == "" || f.version == q.version)
    && (q.bucket.None? || f.bucket == q.bucket)
    && (q.name.None? || f.name == q.name)
    && (q.sizeBytes.None? || f.sizeBytes == q.sizeBytes
        || (f.sizeBytes.None? && (f.objectSize.None? || f.objectSize == q.sizeBytes)))
    && (q.durationMs.None? || f.durationMs.None? || f.durationMs == q.durationMs)
    && (q.contentType.None? || q.contentType.value == "" || f.contentType.None? || f.contentType.value == ""
        || q.mediaType(f.contentType.value) == q.mediaType(q.contentType.value))
  }

  // The first row that may lend and carries the metrics of a pipeline run, else the first that may lend.
  ghost predicate Best(docs: Docs, rows: seq<DocId>, q: Query, match_: Option<DocId>)
    requires forall id | id in rows :: id in docs
  {
    match match_
    case None => forall id | id in rows :: !MayLend(docs[id], q)
    case Some(id) =>
      exists i | 0 <= i < |rows| ::
        && rows[i] == id && MayLend(docs[id], q)
        && (forall j | 0 <= j < |rows| && MayLend(docs[rows[j]], q) ::
              if docs[id].facts.pipelineMetrics then docs[rows[j]].facts.pipelineMetrics ==> i <= j
              else i <= j && !docs[rows[j]].facts.pipelineMetrics)
  }

  predicate HasChecksum(doc: Doc, checksum: string, scopeKey: Option<string>): (has: bool)
    ensures has <==>
      if scopeKey.None? || scopeKey.value == "" then doc.facts.checksum == Some(checksum)
      else doc.facts.checksumScope == if checksum == "" then None else Some(scopeKey.value + ":" + checksum)
  {
    if Given(scopeKey) then doc.facts.checksumScope == Scoped(Some(checksum), scopeKey)
    else doc.facts.checksum == Some(checksum)
  }

  // Found by the checksum with the scope and without.
  predicate ChecksumAt(f: Facts, checksum: string, scopeKey: Option<string>) {
    f.checksum == Some(checksum) && f.checksumScope == Scoped(Some(checksum), scopeKey)
  }

  predicate HasContentHash(doc: Doc, contentHash: string, scopeKey: Option<string>): (has: bool)
    ensures has <==>
      if scopeKey.None? || scopeKey.value == "" then doc.facts.contentHash == Some(contentHash)
      else doc.facts.contentHashScope == if contentHash == "" then None else Some(scopeKey.value + ":" + contentHash)
  {
    if Given(scopeKey) then doc.facts.contentHashScope == Scoped(Some(contentHash), scopeKey)
    else doc.facts.contentHash == Some(contentHash)
  }

  // A lender's result in another document: completed now, with the lender's manifest where the lender has
  // one and the content hash of the borrower's own bytes where these were downloaded.
  ghost predicate Borrowed(before: Doc, doc: Doc, lender: Doc, q: Query, own: Option<string>, now: Time)
    requires q.scopeKey.Some?
  {
    var f, g, of := doc.facts, before.facts, lender.facts;
    var hash := if own.Some? then own else of.contentHash;
    && doc.status == Completed && doc.attempts == before.attempts && doc.updatedAt == Some(now) && f.pipelineMetrics
    && f.manifest == (if of.manifest.Some? then of.manifest else g.manifest)
    && (if hash.None? || hash.value == ""
        then f.contentHash == g.contentHash && f.contentHashScope == g.contentHashScope
        else f.contentHash == hash && HasContentHash(doc, hash.value, q.scopeKey))
    && f.sizeBytes == (if q.sizeBytes.Some? then q.sizeBytes else g.sizeBytes)
    && f.contentType == (if q.contentType.None? || q.contentType.value == "" then g.contentType else q.contentType)
    && f.durationMs == (if q.durationMs.Some? then q.durationMs else if of.durationMs.Some? then of.durationMs
                        else g.durationMs)
    && f.bucket == g.bucket && f.name == g.name && f.scopeKey == g.scopeKey && f.version == g.version
    && f.checksum == g.checksum && f.checksumScope == g.checksumScope && f.objectSize == g.objectSize
  }

  class DocumentStore {
    const processingTtl: int
    var docs: Docs

    constructor (processingTtl: int)
      ensures docs == map[] && this.processingTtl == processingTtl
    {
      this.processingTtl, docs := processingTtl, map[];
    }

    method Begin(id: DocId, now: Time, size: Option<int>, version: string) returns (d: Decision)
      modifies this
      ensures d.action == Process <==> Free(old(docs), id, now, processingTtl)
      ensures d.action == Process <==>
        (id in old(docs) ==>
          var before := old(docs)[id];
          && before.status != Completed && before.status != Dlq
          && (before.status == Processing && before.updatedAt.Some? ==> now - before.updatedAt.value > processingTtl))
      ensures d.action == Process ==>
        && docs == old(docs)[id := Granted(OrNew(old(docs), id), now, size, version)]
        && d == Decision(Process, Processing, docs[id].attempts)
        && docs[id].status == Processing && docs[id].updatedAt == Some(now)
        && docs[id].attempts == 1 + (if id in old(docs) then old(docs)[id].attempts else 0)
        && docs[id].facts == (if id in old(docs) then old(docs)[id].facts else NO_FACTS)
             .(objectSize := size, version := Some(version))
      ensures d.action != Process ==>
        && docs == old(docs) && id in docs && d.status == docs[id].status && d.attempts == docs[id].attempts
        && (d.action == SkipCompleted <==> docs[id].status == Completed || docs[id].status == Dlq)
    {
      if id in docs {
        var doc := docs[id];
        var attempt := doc.attempts;
        if doc.status == Completed {
          return Decision(SkipCompleted, Completed, attempt);
        }
        if doc.status == Dlq {
          return Decision(SkipCompleted, Dlq, attempt);
        }
        if doc.status == Processing {
          if doc.updatedAt.Some? && doc.updatedAt.value >= now - processingTtl {
            return Decision(SkipProcessing, Processing, attempt);
          }
        }
        attempt := attempt + 1;
        docs := docs[id := doc.(status := Processing, attempts := attempt, updatedAt := Some(now),
          facts := doc.facts.(objectSize := size, version := Some(version)))];
        return Decision(Process, Processing, attempt);
      }
      docs := docs[id := Doc(Processing, 1, Some(now), NO_FACTS.(objectSize := size, version := Some(version)))];
      return Decision(Process, Processing, 1);
    }

    // Updating a document that is not there is an error.
    method Mark(id: DocId, status: Status, now: Time) returns (found: bool)
      modifies this
      ensures found <==> id in old(docs)
      ensures docs == if found then old(docs)[id := Marked(old(docs)[id], status, now)] else old(docs)
      ensures found ==>
        && docs[id].status == status && docs[id].updatedAt == Some(now)
        && docs[id].attempts == old(docs)[id].attempts && docs[id].facts == old(docs)[id].facts
    {
      found := id in docs;
      if found {
        docs := docs[id := docs[id].(status := status, updatedAt := Some(now))];
      }
    }

    // Merges what a request tells about its object into its document, creating that if need be.
    method UpdateObjectMetadata(id: DocId, m: Metadata, now: Time)
      modifies this
      ensures docs.Keys == old(docs).Keys + {id}
      ensures forall x | x in old(docs) && x != id :: docs[x] == old(docs)[x]
      ensures KeepsResults(OrNew(old(docs), id), docs[id])
      ensures docs[id].status == Processing ==>
        forall t :: Leased(docs[id], t, processingTtl) <==> t - now <= processingTtl
      ensures docs[id].updatedAt == Some(now)
      ensures Tells(docs[id].facts, OrNew(old(docs), id).facts, m)
      ensures docs[id] == Noted(OrNew(old(docs), id), m, now)
    {
      var doc := OrNew(docs, id);
      var f := doc.facts.(bucket := Some(m.bucket), name := Some(m.name));
      if Given(m.scopeKey) {
        f := f.(scopeKey := m.scopeKey);
      }
      if Given(m.contentType) {
        f := f.(contentType := m.contentType);
      }
      if m.sizeBytes.Some? {
        f := f.(sizeBytes := m.sizeBytes);
      }
      if m.durationMs.Some? {
        f := f.(durationMs := m.durationMs);
      }
      if Given(m.checksum) {
        f := f.(checksum := m.checksum, checksumScope := Scoped(m.checksum, m.scopeKey));
      }
      assert f == Noted(doc, m, now).facts;
      NotedKeeps(doc, m, now);
      docs := docs[id := doc.(updatedAt := Some(now), facts := f)];
    }

    method FindCompleted(rows: seq<DocId>, q: Query) returns (found: Option<DocId>)
      requires forall id | id in rows :: id in docs
      ensures Best(docs, rows, q, found)
      ensures found.None? <==> forall id | id in rows :: !MayLend(docs[id], q)
      ensures found.Some? ==>
        found.value in rows && docs[found.value].status == Completed && MayLend(docs[found.value], q)
    {
      var fallback: Option<DocId>, at := None, 0;
      for i := 0 to |rows|
        invariant forall j | 0 <= j < i && Lends(docs[rows[j]], q) :: !docs[rows[j]].facts.pipelineMetrics
        invariant fallback.None? ==> forall j | 0 <= j < i :: !Lends(docs[rows[j]], q)
        invariant fallback.Some? ==>
          && 0 <= at < i && rows[at] == fallback.value && Lends(docs[rows[at]], q)
          && forall j | 0 <= j < at :: !Lends(docs[rows[j]], q)
      {
        if Lends(docs[rows[i]], q) {
          if docs[rows[i]].facts.pipelineMetrics {
            return Some(rows[i]);
          }
          if fallback.None? {
            fallback, at := Some(rows[i]), i;
          }
        }
      }
      found := fallback;
      if found.Some? {
        assert rows[at] == found.value;
      }
    }

    // The store returns the documents with an equal key in an order of its own, and at most limit.
    method FindCompletedByChecksum(order: seq<DocId>, checksum: string, q: Query, limit: nat)
      returns (found: Option<DocId>)
      requires forall id | id in order :: id in docs
      ensures Best(docs, Take(Where(order, WithChecksum(docs, checksum, q.scopeKey)), limit), q, found)
      ensures found.Some? ==>
        && found.value in docs && docs[found.value].status == Completed && MayLend(docs[found.value], q)
        && HasChecksum(docs[found.value], checksum, q.scopeKey)
    {
      var rows := Where(order, WithChecksum(docs, checksum, q.scopeKey));
      found := FindCompleted(Take(rows, limit), q);
      assert found.Some? ==> found.value in Take(rows, limit) && WithChecksum(docs, checksum, q.scopeKey)(found.value);
    }

    method FindCompletedByContentHash(order: seq<DocId>, contentHash: string, q: Query, limit: nat)
      returns (found: Option<DocId>)
      requires forall id | id in order :: id in docs
      ensures Best(docs, Take(Where(order, WithContentHash(docs, contentHash, q.scopeKey)), limit), q, found)
      ensures found.Some? ==>
        && found.value in docs && docs[found.value].status == Completed && MayLend(docs[found.value], q)
        && HasContentHash(docs[found.value], contentHash, q.scopeKey)
    {
      var rows := Where(order, WithContentHash(docs, contentHash, q.scopeKey));
      found := FindCompleted(Take(rows, limit), q);
      assert found.Some? ==>
        found.value in Take(rows, limit) && WithContentHash(docs, contentHash, q.scopeKey)(found.value);
    }

    // Completes a document with the result of one that has the same checksum, if there is one.
    method ApplyChecksumDedupe(id: DocId, order: seq<DocId>, checksum: Option<string>, q: Query, limit: nat, now: Time)
      returns (source: Option<DocId>)
      requires id in docs && q.scopeKey.Some? && forall x | x in order :: x in docs
      modifies this
      ensures source.None? ==> docs == old(docs)
      ensures source.Some? ==>
        var lender := source.value;
        && Given(checksum) && lender in old(docs) && old(docs)[lender].status == Completed
        && MayLend(old(docs)[lender], q) && HasChecksum(old(docs)[lender], checksum.value, q.scopeKey)
        && docs == old(docs)[id := Deduped(old(docs)[id], LoanOf(old(docs)[lender], q, None), q.scopeKey.value, now)]
        && Borrowed(old(docs)[id], docs[id], old(docs)[lender], q, None, now)
      ensures if !Given(checksum) then source.None?
        else
          var rows := Where(order, WithChecksum(old(docs), checksum.value, q.scopeKey));
          Best(old(docs), Take(rows, limit), q, source)
    {
      source := None;
      if Given(checksum) {
        source := FindCompletedByChecksum(order, checksum.value, q, limit);
        if source.Some? {
          DedupedBorrows(docs[id], docs[source.value], q, None, now);
          docs := docs[id := Deduped(docs[id], LoanOf(docs[source.value], q, None), q.scopeKey.value, now)];
        }
      }
    }

    // Completes a document with the result of one with the same content, if there is one.
    method ApplyContentHashDedupe(
        id: DocId, order: seq<DocId>, contentHash: Option<string>, q: Query, limit: nat, now: Time)
      returns (source: Option<DocId>)
      requires id in docs && q.scopeKey.Some? && forall x | x in order :: x in docs
      modifies this
      ensures source.None? ==> docs == old(docs)
      ensures source.Some? ==>
        var lender := source.value;
        && Given(contentHash) && lender in old(docs) && old(docs)[lender].status == Completed
        && MayLend(old(docs)[lender], q) && HasContentHash(old(docs)[lender], contentHash.value, q.scopeKey)
        && docs == old(docs)[id :=
             Deduped(old(docs)[id], LoanOf(old(docs)[lender], q, contentHash), q.scopeKey.value, now)]
        && Borrowed(old(docs)[id], docs[id], old(docs)[lender], q, contentHash, now)
      ensures if !Given(contentHash) then source.None?
        else
          var rows := Where(order, WithContentHash(old(docs), contentHash.value, q.scopeKey));
          Best(old(docs), Take(rows, limit), q, source)
    {
      source := None;
      if Given(contentHash) {
        source := FindCompletedByContentHash(order, contentHash.value, q, limit);
        if source.Some? {
          DedupedBorrows(docs[id], docs[source.value], q, contentHash, now);
          docs := docs[id := Deduped(docs[id], LoanOf(docs[source.value], q, contentHash), q.scopeKey.value, now)];
        }
      }
    }
  }

  function WithChecksum(docs: Docs, checksum: string, scopeKey: Option<string>): (test: DocId -> bool)
    ensures forall id :: test(id) <==> id in docs && HasChecksum(docs[id], checksum, scopeKey)
  {
    (id: DocId) => id in docs && HasChecksum(docs[id], checksum, scopeKey)
  }

  function WithContentHash(docs: Docs, contentHash: string, scopeKey: Option<string>): (test: DocId -> bool)
    ensures forall id :: test(id) <==> id in docs && HasContentHash(docs[id], contentHash, scopeKey)
  {
    (id: DocId) => id in docs && HasContentHash(docs[id], contentHash, scopeKey)
  }

  // The borrower's own content hash goes before the lender's, and so do its size and type.
  function LoanOf(lender: Doc, q: Query, contentHash: Option<string>): Loan {
    Loan(
      Over(contentHash, lender.facts.contentHash), q.sizeBytes, q.contentType,
      Over(q.durationMs, lender.facts.durationMs), lender.facts.manifest)
  }

  lemma DedupedBorrows(doc: Doc, lender: Doc, q: Query, own: Option<string>, now: Time)
    requires q.scopeKey.Some?
    ensures Borrowed(doc, Deduped(doc, LoanOf(lender, q, own), q.scopeKey.value, now), lender, q, own, now)
  {
  }
}
