// Audit logs and the garbage collection: no manifest mentions an audit log, so what a collection leaves of
// them is what lies below an excluded prefix.

module AuditThenCollect {
  import opened AuditCompactor
  import opened AuditRun
  import opened BatchCompaction
  import opened CompactionTypes
  import opened CompactionFate
  import opened GraphGc
  import opened GraphStorage
  import opened Optionals
  import opened Tables

  // Why a collection leaves a file.
  ghost predicate Spared(
    root: Uri, prefixes: seq<string>, listing: seq<ManifestInfo>, now: int, r: Retention, u: Uri)
  {
    listing == [] || Excluded(root, prefixes, u) || u in Mentioned(KeptManifests(listing, now, r))
  }

  method CompactAuditAndCollect(
    storage: Storage, base: Uri, files: seq<AuditFile>, policy: AuditPolicy, options: Options, now: int,
    retention: Retention, prefixes: seq<string>, batchSize: int)
    returns (r: Option<AuditReport>, ghost compacted: map<Uri, Table>)
    requires storage.Valid() && PlainNames(base, AUDIT_LOG)
    requires forall f | f in files :: ParseGraphUri(f.uri) == Some(AUDIT_LOG) && storage.Old(f.uri, storage.issued)
    modifies storage`files, storage`states, storage`issued
    ensures storage.Valid()
    ensures Listed(old(storage.files), files) ==>
      CarriedOut(storage, old(storage.files), old(storage.issued), AuditPlan(policy, files), options, r, compacted)
    ensures storage.files.Keys <= compacted.Keys && forall u | u in storage.files :: storage.files[u] == compacted[u]
    ensures forall u | u in compacted && OnShelf(u, AUDIT_LOG) ::
      u in storage.files <==> Spared(base, prefixes, storage.manifests, now, retention, u)
    ensures storage.manifests != [] && Unmentioned(storage.manifests) && NoneExcluded(base, prefixes, compacted) ==>
      ShelfRows(storage.files, AUDIT_LOG) == multiset{}
  {
    hide CarriedOut, Listed, Spared, NoneExcluded, Unmentioned, ShelfRows, ParseGraphUri;
    r := CompactAuditLogs(storage, base, files, policy, options);
    compacted := storage.files;
    Collect(storage, base, now, retention, prefixes, batchSize);
    AuditLogsLeft(base, prefixes, compacted, storage.manifests, now, retention);
    if storage.manifests != [] && Unmentioned(storage.manifests) && NoneExcluded(base, prefixes, compacted) {
      NoAuditRowLeft(base, prefixes, compacted, storage.manifests, now, retention);
    }
    hide Left;
  }

  // No manifest mentions an audit log.
  ghost predicate Unmentioned(listing: seq<ManifestInfo>) {
    forall m, f | m in listing && f in m.files :: !OnShelf(f.uri, AUDIT_LOG)
  }

  ghost predicate NoneExcluded(root: Uri, prefixes: seq<string>, files: map<Uri, Table>) {
    forall u | u in files && OnShelf(u, AUDIT_LOG) :: !Excluded(root, prefixes, u)
  }

  // An audit log survives a collection exactly when it lies below an excluded prefix, there is no manifest, or
  // a kept manifest mentions it.
  lemma AuditLogsLeft(
    root: Uri, prefixes: seq<string>, files: map<Uri, Table>, listing: seq<ManifestInfo>, now: int, r: Retention)
    requires PlainNames(root, AUDIT_LOG)
    ensures var left := Left(root, prefixes, files, listing, now, r);
      && left.Keys <= files.Keys && (forall u | u in left :: left[u] == files[u])
      && (forall u | u in files && OnShelf(u, AUDIT_LOG) ::
            u in left <==> Spared(root, prefixes, listing, now, r, u))
  {
    HealthcheckIsNone(root);
    hide KeptManifests, Excluded, Healthcheck, ParseGraphUri;
  }

  // So if no manifest mentions an audit log and none is excluded, no audit row survives.
  lemma NoAuditRowLeft(
    root: Uri, prefixes: seq<string>, files: map<Uri, Table>, listing: seq<ManifestInfo>, now: int, r: Retention)
    requires PlainNames(root, AUDIT_LOG) && listing != [] && Unmentioned(listing) && NoneExcluded(root, prefixes, files)
    ensures ShelfRows(Left(root, prefixes, files, listing, now, r), AUDIT_LOG) == multiset{}
  {
    AuditLogsLeft(root, prefixes, files, listing, now, r);
    KeptIsMentioned(listing, now, r);
    hide Left, KeptManifests, Excluded, ShelfRows, OnShelf;
    NoRows(Left(root, prefixes, files, listing, now, r), AUDIT_LOG);
  }

  lemma HealthcheckIsNone(root: Uri)
    requires PlainNames(root, AUDIT_LOG)
    ensures ParseGraphUri(Healthcheck(root)) == None
  {
    assert "healthcheck.parquet"[0] == 'h' && "vertices"[0] == 'v' && "edges"[0] == 'e';
  }

  lemma {:induction false} NoRows(files: map<Uri, Table>, shelf: GraphKey)
    requires forall u | u in files :: !OnShelf(u, shelf)
    ensures ShelfRows(files, shelf) == multiset{}
    decreases |files|
  {
    if u :| u in files {
      ShelfRowsWithout(files, u, shelf);
      NoRows(files - {u}, shelf);
    } else {
      assert |files| == 0;
    }
  }

  // ---------------------------------------------------------------- the usual prefixes

  // The prefixes that are excluded unless others are named do not spare audit logs.
  lemma AuditLogsNotExcluded(base: Uri, id: string)
    requires base != []
    ensures !Excluded(base, ["audit", "snapshots"], PartUri(base, AUDIT_LOG, id))
  {
    var u, rest := PartUri(base, AUDIT_LOG, id), ["vertices", "AuditLog", "core", PartFile(id)];
    assert u == base + rest;
    PathAppend(base, rest);
    var stem := Path(base) + "/";
    assert Path(rest)[0] == 'v' && Path(u)[|stem|] == 'v';
    assert "audit"[0] == 'a' && "audit"[4] == 't' && "snapshots"[0] == 's' && "snapshots"[8] == 's';
    forall p | p in ["audit", "snapshots"]
      ensures !(stem + StripSlashes(p) <= Path(u))
    {
      assert StripSlashes(p) == p && (stem + p)[|stem|] == p[0];
    }
  }
}
