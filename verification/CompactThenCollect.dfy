// A compaction run followed by a garbage collection: what becomes of the rows when the run succeeds, and
// when it fails half-way.

module CompactThenCollect {
  import opened BatchCompaction
  import opened CompactionFate
  import opened CompactionPlanning
  import opened CompactionPolicies
  import opened CompactionRunner
  import opened CompactionTypes
  import opened GraphGc
  import opened GraphStorage
  import opened Optionals
  import opened Tables

  // Every row of u, with its cells, is in some stored file, in order.
  ghost predicate StillStored(before: map<Uri, Table>, u: Uri, now: map<Uri, Table>) {
    u in before && exists v :: v in now && Block(Content(before[u]), Content(now[v]))
  }

  ghost predicate AllStillStored(before: map<Uri, Table>, entries: seq<Entry>, now: map<Uri, Table>) {
    forall key, kind | EligibleRun(entries, key) && LastFile(entries, key, kind).Some? ::
      StillStored(before, LastFile(entries, key, kind).value.uri, now)
  }

  // A failed run before a collection, compared with the collection alone: the old files that survive both are
  // exactly those that the collection alone would leave and that are not among the files the run deletes.
  // What the run has written goes, as no manifest mentions it, unless its path is excluded. So nothing is
  // lost exactly when the run deletes nothing that the collection would leave.
  ghost predicate FailureCosts(
    before: map<Uri, Table>, gone: set<Uri>, alone: map<Uri, Table>, left: map<Uri, Table>, root: Uri,
    prefixes: seq<string>)
  {
    && (forall u | u in before :: u in left <==> u in alone && u !in gone)
    && (forall u | u in before && u in left :: left[u] == before[u])
    && (forall u | u in left && u !in before :: Excluded(root, prefixes, u))
    && ((forall u | u in alone :: u in left) <==> alone.Keys !! gone)
  }

  // Whether the run goes through, and which files it deletes, is said by RunFate before it starts.
  method CompactAndCollect(
    storage: Storage, base: Uri, policy: CompactionPolicy, options: Options, runId: string, completedAt: int,
    now: int, retention: Retention, prefixes: seq<string>, batchSize: int)
    returns (r: Result<Report>)
    requires storage.Valid() && SoundManifests(storage, base, storage.manifests, storage.issued)
    requires "compaction-" <= runId && !options.dryRun
    requires retention.compactions >= 1
    requires forall m | m in storage.manifests && IsCompaction(m) :: m.completedAt < completedAt
    modifies storage
    ensures storage.Valid()
    ensures var fate := RunFate(old(storage.files), options, PlannedJobs(policy, Entries(old(storage.manifests))));
      && (r.Ok? <==> fate.ok)
      && (fate.ok ==> AllStillStored(old(storage.files), Entries(old(storage.manifests)), storage.files))
      && (!fate.ok ==>
            FailureCosts(
              old(storage.files), fate.gone,
              Left(base, prefixes, old(storage.files), old(storage.manifests), now, retention), storage.files, base,
              prefixes))
    ensures r.Err? ==> storage.manifests == old(storage.manifests)
    ensures TruthfulManifests(old(storage.files), Entries(old(storage.manifests))) ==> r.Ok?
  {
    hide AllCarried, AllStillStored, FailureCosts, LeavesOld, Counted, Left, RunFate, PlannedJobs, Belong;
    hide TruthfulManifests, SoundManifests;
    ghost var before, n, listing, entries :=
      storage.files, storage.issued, storage.manifests, Entries(storage.manifests);
    AllMentionedOld(storage, base, listing, n);
    NothingMentioned(before, options, policy);
    r := RunCompaction(storage, base, policy, options, runId, completedAt);
    ghost var compacted := storage.files;
    Collect(storage, base, now, retention, prefixes, batchSize);
    if r.Err? {
      AfterFailure(
        storage, base, prefixes, before, n, options, RunFate(before, options, PlannedJobs(policy, entries)), compacted,
        listing, now, retention);
    } else {
      if r.value.outputs != [] {
        OutputsAreKept(storage.manifests, r.value.outputs, runId, completedAt, base, compacted.Keys, now, retention);
      }
      OutputsAreLeft(base, prefixes, compacted, storage.manifests, now, retention, r.value.outputs);
      CarriedStillStored(before, entries, r.value.outputs, compacted, storage.files);
    }
  }

  // Without a manifest there is nothing to do.
  lemma NothingMentioned(files: map<Uri, Table>, options: Options, policy: CompactionPolicy)
    ensures RunFate(files, options, PlannedJobs(policy, Entries([]))).ok
  {
  }

  lemma OutputsAreLeft(
    root: Uri, prefixes: seq<string>, files: map<Uri, Table>, listing: seq<ManifestInfo>, now: int, r: Retention,
    outputs: seq<CompactionOutput>)
    requires forall o | o in outputs :: o.file.uri in KeepFiles(root, files.Keys, listing, now, r)
    ensures var left := Left(root, prefixes, files, listing, now, r);
      forall o | o in outputs && o.file.uri in files :: o.file.uri in left && left[o.file.uri] == files[o.file.uri]
  {
    hide KeepFiles;
  }

  lemma AllMentionedOld(storage: Storage, base: Uri, listing: seq<ManifestInfo>, n: nat)
    requires SoundManifests(storage, base, listing, n)
    ensures forall m, f | m in listing && f in m.files :: storage.Old(f.uri, n)
  {
    forall m, f | m in listing && f in m.files
      ensures storage.Old(f.uri, n)
    {
      EntryOf(listing, m, f);
    }
  }

  lemma {:induction false} EntryOf(listing: seq<ManifestInfo>, m: ManifestInfo, f: ManifestFile)
    requires m in listing && f in m.files
    ensures Entry(m.runId, f) in Entries(listing)
  {
    var last := |listing| - 1;
    if m == listing[last] {
      var k :| 0 <= k < |m.files| && m.files[k] == f;
      assert Tagged(m)[k] == Entry(m.runId, f);
    } else {
      assert listing == listing[..last] + [listing[last]];
      EntryOf(listing[..last], m, f);
    }
  }

  // A failed run has changed no file that was there before and its manifest is not written, so the
  // collection decides as it would have decided alone.
  lemma AfterFailure(
    storage: Storage, base: Uri, prefixes: seq<string>, before: map<Uri, Table>, n: nat, options: Options, fate: Fate,
    compacted: map<Uri, Table>, listing: seq<ManifestInfo>, now: int, retention: Retention)
    requires LeavesOld(storage, before, n, options, compacted) && listing != []
    requires Follows(fate, before, false, compacted)
    requires forall u | u in before :: storage.Old(u, n)
    requires forall m, f | m in listing && f in m.files :: storage.Old(f.uri, n)
    ensures FailureCosts(
      before, fate.gone, Left(base, prefixes, before, listing, now, retention),
      Left(base, prefixes, compacted, listing, now, retention), base, prefixes)
  {
    KeptIsMentioned(listing, now, retention);
    hide KeptManifests, Excluded;
    var healthcheck := Healthcheck(base);
    forall u | u in compacted && u !in before
      ensures u !in KeepFiles(base, compacted.Keys, listing, now, retention)
    {
      assert !storage.Old(u, n);
      var m :| m >= n && u != [] && u[|u| - 1] == PartFile(storage.uuid(m));
      assert u[|u| - 1][0] == 'p' && healthcheck[|healthcheck| - 1] == "healthcheck.parquet";
    }
    forall u | u in before && u in compacted
      ensures u in KeepFiles(base, compacted.Keys, listing, now, retention) <==>
        u in KeepFiles(base, before.Keys, listing, now, retention)
    {
    }
  }

  // What a failed run costs when the files of the runs that take part are stored and not shared: something is
  // lost exactly when sources are deleted and a job before the first wrong count has a source that the
  // collection alone would leave.
  lemma WhenRowsAreLost(
    files: map<Uri, Table>, options: Options, policy: CompactionPolicy, root: Uri, prefixes: seq<string>,
    listing: seq<ManifestInfo>, now: int, retention: Retention)
    requires OwnFiles(files, Entries(listing)) && !options.dryRun
    ensures var jobs := PlannedJobs(policy, Entries(listing));
      var fate, n := RunFate(files, options, jobs), Achieved(files, options, jobs);
      var collected := Candidates(root, prefixes, files.Keys, listing, now, retention);
      && (fate.ok <==> !options.strict || forall j | j in jobs :: CountRight(files, j))
      && (Left(root, prefixes, files, listing, now, retention).Keys !! fate.gone <==>
            !(options.deleteSource && exists u :: u in SourcesOf(jobs[..n]) && u in files && u !in collected))
  {
    hide PlannedJobs, RunFate, Candidates, CountRight, OwnFiles, SourcesOf, Achieved;
    CleanRun(files, options, policy, Entries(listing));
    var gone := RunFate(files, options, PlannedJobs(policy, Entries(listing))).gone;
    var left := Left(root, prefixes, files, listing, now, retention);
    assert left.Keys !! gone <==> forall u | u in gone :: u !in left;
  }

  // The manifest of the newest compaction protects its outputs from the collection.
  lemma OutputsAreKept(
    listing: seq<ManifestInfo>, outputs: seq<CompactionOutput>, runId: string, completedAt: int,
    root: Uri, files: set<Uri>, now: int, retention: Retention)
    requires listing != [] && listing[|listing| - 1] == ManifestInfo(runId, completedAt, Files(outputs))
    requires "compaction-" <= runId && retention.compactions >= 1
    requires forall m | m in listing[..|listing| - 1] && IsCompaction(m) :: m.completedAt < completedAt
    ensures forall o | o in outputs :: o.file.uri in KeepFiles(root, files, listing, now, retention)
  {
    var m := listing[|listing| - 1];
    assert listing == listing[..|listing| - 1] + [m];
    NewestCompactionKept(listing, now, retention, m);
    forall o | o in outputs
      ensures o.file.uri in Mentioned(KeptManifests(listing, now, retention))
    {
      var i :| 0 <= i < |outputs| && outputs[i] == o;
      assert m.files[i] == o.file;
    }
  }

  lemma CarriedStillStored(
    before: map<Uri, Table>, entries: seq<Entry>, outputs: seq<CompactionOutput>,
    compacted: map<Uri, Table>, now: map<Uri, Table>)
    requires AllCarried(before, entries, outputs, compacted)
    requires forall o | o in outputs && o.file.uri in compacted ::
      o.file.uri in now && now[o.file.uri] == compacted[o.file.uri]
    ensures AllStillStored(before, entries, now)
  {
    forall key, kind | EligibleRun(entries, key) && LastFile(entries, key, kind).Some?
      ensures StillStored(before, LastFile(entries, key, kind).value.uri, now)
    {
      assert Carried(before, outputs, LastFile(entries, key, kind).value.uri, compacted);
    }
  }

  // ---------------------------------------------------------------- the run after a deleting run

  // A run that takes part and whose kinds the outputs of a compaction have, too.
  ghost predicate Repeated(entries: seq<Entry>, key: RunKey, kind: string) {
    && EligibleRun(entries, key) && LastFile(entries, key, kind).Some?
    && (key.isEdge ==> LastFile(entries, key, MainKind(true)).Some?)
  }

  // The manifests of compacted runs stay and go on mentioning the deleted files, so after a run that deletes
  // its sources the next one fails.
  method CompactAgain(
    storage: Storage, base: Uri, policy: CompactionPolicy, options: Options, runId: string, completedAt: int,
    policy': CompactionPolicy, options': Options, runId': string, completedAt': int)
    returns (first: Result<Report>, second: Result<Report>)
    requires storage.Valid() && SoundManifests(storage, base, storage.manifests, storage.issued)
    requires forall e | e in Entries(storage.manifests) :: e.runId != runId
    modifies storage
    ensures storage.Valid() && SoundManifests(storage, base, storage.manifests, storage.issued)
    ensures first.Ok? && Deletes(options) && !options'.dryRun ==>
      ((exists key, kind :: Repeated(Entries(old(storage.manifests)), key, kind)) ==> second.Err?)
  {
    hide AllCarried, LeavesOld, Counted, RunFate, PlannedJobs, Belong, SoundManifests, TruthfulManifests, Repeated;
    hide RunProgress, Entries, GroupsOf;
    ghost var before, n, listing := storage.files, storage.issued, storage.manifests;
    first := RunCompaction(storage, base, policy, options, runId, completedAt);
    ghost var mid, listing' := storage.files, storage.manifests;
    second := RunCompaction(storage, base, policy', options', runId', completedAt');
    if first.Ok? && Deletes(options) && !options'.dryRun {
      if key, kind :| Repeated(Entries(listing), key, kind) {
        SourceGone(storage, base, before, n, options, policy, listing, key, kind, mid);
        SomethingWritten(before, Entries(listing), first.value.outputs, key, kind, mid);
        ghost var m := ManifestInfo(runId, completedAt, Files(first.value.outputs));
        StillMentioned(listing, m, first.value.outputs, key, kind);
        NextRunFails(mid, options', policy', Entries(listing'), key, kind);
      }
    }
  }

  lemma SourceGone(
    storage: Storage, base: Uri, before: map<Uri, Table>, n: nat, options: Options, policy: CompactionPolicy,
    listing: seq<ManifestInfo>, key: RunKey, kind: string, mid: map<Uri, Table>)
    requires Repeated(Entries(listing), key, kind) && Deletes(options)
    requires SoundManifests(storage, base, listing, n) && LeavesOld(storage, before, n, options, mid)
    requires Follows(RunFate(before, options, PlannedJobs(policy, Entries(listing))), before, true, mid)
    ensures LastFile(Entries(listing), key, kind).value.uri !in mid
  {
    hide RunFate, PlannedJobs, ParseGraphUri, EligibleRun;
    var jobs := PlannedJobs(policy, Entries(listing));
    var j := SourcePlanned(policy, Entries(listing), key, kind);
    InSources(jobs, LastFile(Entries(listing), key, kind).value.uri);
    AllSourcesGo(before, options, jobs);
    LastFileMentioned(Entries(listing), key, kind);
  }

  lemma SomethingWritten(
    before: map<Uri, Table>, entries: seq<Entry>, outputs: seq<CompactionOutput>, key: RunKey, kind: string,
    now: map<Uri, Table>)
    requires AllCarried(before, entries, outputs, now) && Repeated(entries, key, kind)
    ensures outputs != []
  {
    hide EligibleRun;
    assert Carried(before, outputs, LastFile(entries, key, kind).value.uri, now);
  }

  // The outputs are filed under kinds that the entity has, so its runs still take part, with the same files.
  lemma StillMentioned(
    listing: seq<ManifestInfo>, m: ManifestInfo, outputs: seq<CompactionOutput>, key: RunKey, kind: string)
    requires forall e | e in Entries(listing) :: e.runId != m.runId
    requires m.files == Files(outputs) && Belong(outputs, GroupsOf(Entries(listing)))
    requires Repeated(Entries(listing), key, kind)
    ensures EligibleRun(Entries(listing + [m]), key)
    ensures LastFile(Entries(listing + [m]), key, kind) == LastFile(Entries(listing), key, kind)
    ensures LastFile(Entries(listing), key, kind).Some?
  {
    var entries, more := Entries(listing), Tagged(m);
    assert (listing + [m])[..|listing|] == listing;
    assert Entries(listing + [m]) == entries + more;
    hide Entries, GroupsOf, ParseGraphUri;
    LastFileMentioned(entries, key, kind);
    forall k
      ensures LastFile(entries + more, key, k) == LastFile(entries, key, k)
    {
      LastFileKept(entries, more, key, k);
    }
    forall other: RunKey, k | other.isEdge == key.isEdge && other.entityType == key.entityType
      && LastFile(entries + more, other, k).Some?
      ensures LastFile(entries, key, k).Some?
    {
      LastFileMentioned(entries + more, other, k);
      var e :| e in entries + more && IsFor(e, other, k);
      if e in entries {
        MentionedHasLast(entries, e, other, k);
      } else {
        OutputKind(entries, m, outputs, e, other, key, kind, k);
      }
    }
  }

  lemma OutputKind(
    entries: seq<Entry>, m: ManifestInfo, outputs: seq<CompactionOutput>, e: Entry, other: RunKey, key: RunKey,
    kind: string, k: string)
    requires m.files == Files(outputs) && Belong(outputs, GroupsOf(entries)) && Repeated(entries, key, kind)
    requires e in Tagged(m) && IsFor(e, other, k)
    requires other.isEdge == key.isEdge && other.entityType == key.entityType
    ensures LastFile(entries, key, k).Some?
  {
    hide GroupsOf, ParseGraphUri;
    GroupsAreGrouped(entries);
    var i :| 0 <= i < |Tagged(m)| && Tagged(m)[i] == e;
    var o := outputs[i];
    assert o in outputs && e.file == o.file;
    var g :| Eligible(GroupsOf(entries), g) && OutputFor(o, g);
    MemberFile(entries, GroupsOf(entries), g, o.fileKind);
  }

  lemma NextRunFails(
    files: map<Uri, Table>, options: Options, policy: CompactionPolicy, entries: seq<Entry>, key: RunKey, kind: string)
    requires EligibleRun(entries, key) && LastFile(entries, key, kind).Some? && !options.dryRun
    requires LastFile(entries, key, kind).value.uri !in files
    ensures !RunFate(files, options, PlannedJobs(policy, entries)).ok
  {
    hide PlannedJobs, RunFate, EligibleRun;
    var j := SourcePlanned(policy, entries, key, kind);
    MissingStops(files, options, PlannedJobs(policy, entries), j, LastFile(entries, key, kind).value.uri);
  }
}
