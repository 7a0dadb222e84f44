// Compacting one batch of groups, file kind by file kind (retikon_core/compaction/runner.py).

module BatchCompaction {
  import opened CompactionFate
  import opened CompactionTypes
  import opened GraphStorage
  import opened Optionals
  import opened Sequences
  import opened Tables

  datatype CompactionOutput = CompactionOutput(entityType: string, isEdge: bool, fileKind: string, file: ManifestFile)

  datatype Failure =
    | MissingKind(fileKind: string)
    | MissingSource(uri: Uri)
    | RowCountMismatch(fileKind: string, expected: int, written: int)

  datatype Result<T> = Ok(value: T) | Err(error: Failure)

  // ---------------------------------------------------------------- one file kind of a batch

  // What one kind of a batch leaves behind: the concatenation of the sources under a path that did
  // not exist, with its true row count, and, if asked, none of the sources (which were distinct).
  ghost predicate Rewritten(
    before: map<Uri, Table>, uris: seq<Uri>, written: ManifestFile, deleteSource: bool, now: map<Uri, Table>)
  {
    && written.uri !in before && written.uri !in uris
    && (forall u | u in uris :: u in before)
    && var table := Concatenated(Loaded(before, uris));
      && written.rows == |table.rows|
      && (deleteSource ==> Distinct(uris))
      && now == before[written.uri := table] - if deleteSource then (set u | u in uris) else {}
  }

  method ReadTables(storage: Storage, uris: seq<Uri>) returns (r: Result<seq<Table>>)
    ensures r.Ok? <==> forall u | u in uris :: u in storage.files
    ensures r.Ok? ==> r.value == Loaded(storage.files, uris)
    ensures r.Err? ==> r.error.MissingSource? && r.error.uri in uris && r.error.uri !in storage.files
  {
    var tables: seq<Table> := [];
    for i := 0 to |uris|
      invariant forall u | u in uris[..i] :: u in storage.files
      invariant tables == Loaded(storage.files, uris[..i])
    {
      if uris[i] !in storage.files {
        return Err(MissingSource(uris[i]));
      }
      tables := tables + [storage.files[uris[i]]];
      assert uris[..i + 1] == uris[..i] + [uris[i]];
    }
    assert uris[..|uris|] == uris;
    r := Ok(tables);
  }

  // Deletes the sources one by one; a source that is no longer there raises an error.
  method DeleteSources(storage: Storage, uris: seq<Uri>) returns (missing: Option<Uri>, ghost done: nat)
    requires storage.Valid()
    modifies storage`files, storage`states
    ensures storage.Valid()
    ensures done <= |uris| && storage.files == old(storage.files) - Paths(uris[..done])
    ensures Distinct(uris[..done]) && AllStored(old(storage.files), uris[..done])
    ensures missing.None? <==> done == |uris|
    ensures done < |uris| ==> uris[done] !in old(storage.files) || uris[done] in uris[..done]
    ensures Shrinks(old(storage.files), uris, old(storage.states), storage.states)
  {
    hide OnlyDeleted, Shrinks;
    done := 0;
    ShrinksNot(storage.files, uris, storage.states);
    for k := 0 to |uris|
      invariant storage.Valid() && done == k
      invariant storage.files == old(storage.files) - Paths(uris[..k])
      invariant Distinct(uris[..k]) && AllStored(old(storage.files), uris[..k])
      invariant Shrinks(old(storage.files), uris, old(storage.states), storage.states)
    {
      assert uris[..k + 1] == uris[..k] + [uris[k]];
      ghost var states := storage.states;
      var ok := storage.Delete(uris[k]);
      if !ok {
        return Some(uris[k]), k;
      }
      SomeDeleted(old(storage.files), uris, k + 1, storage.files);
      ShrinksOn(old(storage.files), uris, old(storage.states), states, storage.files);
      done := done + 1;
    }
    missing := None;
  }

  // A stretch of history in which nothing but sources went.
  ghost predicate Shrinks(
    before: map<Uri, Table>, uris: seq<Uri>, past: seq<map<Uri, Table>>, states: seq<map<Uri, Table>>)
  {
    Grown(past, states) && forall i | |past| <= i < |states| :: OnlyDeleted(before, uris, states[i])
  }

  lemma ShrinksNot(before: map<Uri, Table>, uris: seq<Uri>, past: seq<map<Uri, Table>>)
    ensures Shrinks(before, uris, past, past)
  {
  }

  lemma ShrinksOn(
    before: map<Uri, Table>, uris: seq<Uri>, past: seq<map<Uri, Table>>, states: seq<map<Uri, Table>>,
    now: map<Uri, Table>)
    requires Shrinks(before, uris, past, states) && OnlyDeleted(before, uris, now)
    ensures Shrinks(before, uris, past, states + [now])
  {
    hide OnlyDeleted;
  }

  lemma SomeDeleted(before: map<Uri, Table>, uris: seq<Uri>, k: nat, now: map<Uri, Table>)
    requires k <= |uris| && now == before - Paths(uris[..k])
    ensures OnlyDeleted(before, uris, now)
  {
  }

  lemma NotBefore(uris: seq<Uri>, k: nat, n: nat)
    requires n < k <= |uris| && Distinct(uris[..k])
    ensures uris[n] !in uris[..n]
  {
    forall i | 0 <= i < n
      ensures uris[i] != uris[n]
    {
      assert uris[..k][i] == uris[i] && uris[..k][n] == uris[n];
    }
  }

  lemma FreshIs(uris: seq<Uri>, k: nat)
    requires k <= |uris| && Distinct(uris[..k]) && (k < |uris| ==> uris[k] in uris[..k])
    ensures Fresh(uris) == k && (k == |uris| <==> Distinct(uris))
  {
    var n := Fresh(uris);
    if n < k {
      NotBefore(uris, k, n);
    } else if k < n {
      NotBefore(uris, n, k);
    }
  }

  ghost predicate Grown(before: seq<map<Uri, Table>>, now: seq<map<Uri, Table>>) {
    |before| <= |now| && now[..|before|] == before
  }

  ghost predicate OnlyDeleted(before: map<Uri, Table>, uris: seq<Uri>, now: map<Uri, Table>) {
    && (forall u | u in now :: u in before && now[u] == before[u])
    && (forall u | u in before && u !in uris :: u in now)
  }

  // The sources of a kind are stored where their key says.
  ghost predicate FiledUnder(groups: seq<CompactionGroup>, key: GraphKey) {
    forall g | g in groups && key.fileKind in g.files :: ParseGraphUri(g.files[key.fileKind].uri) == Some(key)
  }

  ghost predicate PlainNames(base: Uri, key: GraphKey) {
    "vertices" !in base && "edges" !in base && !(key.isEdge && key.entityType == "vertices")
  }

  // No source bears a name that is still to be handed out.
  ghost predicate KnownSources(storage: Storage, groups: seq<CompactionGroup>, kind: string, n: nat) {
    forall g | g in groups && kind in g.files :: storage.Old(g.files[kind].uri, n)
  }

  // Once the concatenation is stored, any of the sources may go.
  lemma ConcatenationPreserves(
    before: map<Uri, Table>, uris: seq<Uri>, key: GraphKey, dest: Uri, now: map<Uri, Table>)
    requires forall u | u in uris :: u in before && ParseGraphUri(u) == Some(key)
    requires ParseGraphUri(dest) == Some(Shelf(key))
    requires dest in now && now[dest] == Concatenated(Loaded(before, uris))
    requires forall u | u in before :: (u in now && now[u] == before[u]) || u in uris
    ensures Preserved(before, now)
  {
    var tables := Loaded(before, uris);
    ConcatenatedContent(tables);
    forall u | u in before && u in uris
      ensures Kept(before, u, now)
    {
      var k :| 0 <= k < |uris| && uris[k] == u;
      SourceIsBlock(tables, k);
      assert tables[k] == before[u] && SameShelf(u, dest);
    }
  }

  // What holds of the files whether a compaction succeeds or fails: none that was there is changed, they go
  // only if that was asked for, and all others bear names handed out after the first n.
  ghost predicate LeavesOld(
    storage: Storage, before: map<Uri, Table>, n: nat, options: Options, now: map<Uri, Table>)
  {
    && OlderUnchanged(storage, before, n, now)
    && (!Deletes(options) ==> forall u | u in before :: u in now)
    && (options.dryRun ==> now == before)
  }

  lemma StillOlder(
    storage: Storage, before: map<Uri, Table>, n: nat, mid: map<Uri, Table>, issued: nat, now: map<Uri, Table>)
    requires n <= issued && forall u | u in before :: storage.Old(u, n)
    requires OlderUnchanged(storage, before, n, mid) && OlderUnchanged(storage, mid, issued, now)
    ensures OlderUnchanged(storage, before, n, now)
  {
    forall u | u in now && storage.Old(u, n)
      ensures u in before && now[u] == before[u]
    {
      assert storage.Old(u, issued);
    }
  }

  lemma Unchanged(storage: Storage, before: map<Uri, Table>, n: nat, options: Options)
    ensures LeavesOld(storage, before, n, options, before)
  {
  }

  // One more part, and perhaps some sources less.
  lemma PartAdded(
    storage: Storage, before: map<Uri, Table>, n: nat, options: Options, dest: Uri, t: Table, uris: seq<Uri>,
    now: map<Uri, Table>)
    requires dest !in before && !storage.Old(dest, n) && !options.dryRun
    requires OnlyDeleted(before[dest := t], uris, now) && (!Deletes(options) ==> now == before[dest := t])
    ensures LeavesOld(storage, before, n, options, now)
  {
  }

  lemma LeavesOldTrans(
    storage: Storage, before: map<Uri, Table>, n: nat, options: Options, mid: map<Uri, Table>, issued: nat,
    now: map<Uri, Table>)
    requires n <= issued && forall u | u in before :: storage.Old(u, n)
    requires LeavesOld(storage, before, n, options, mid) && LeavesOld(storage, mid, issued, options, now)
    ensures LeavesOld(storage, before, n, options, now)
  {
    hide OlderUnchanged;
    StillOlder(storage, before, n, mid, issued, now);
  }

  // What one step of a compaction may do to the storage: every content it passes through still
  // holds all rows there were before.
  twostate predicate Safe(storage: Storage)
    reads storage
  {
    && storage.Valid() && old(storage.issued) <= storage.issued
    && Safely(old(storage.states), storage.states)
  }

  lemma ConcatenatedRows(files: map<Uri, Table>, uris: seq<Uri>)
    requires AllStored(files, uris)
    ensures |Concatenated(Loaded(files, uris)).rows| == StoredRows(files, uris)
  {
    AlignedRowsLength(Loaded(files, uris), UnifySchema(Loaded(files, uris)));
  }

  // Reads the sources and writes their concatenation to a new part.
  method WriteSources(storage: Storage, base: Uri, uris: seq<Uri>, key: GraphKey) returns (r: Result<Table>, dest: Uri)
    requires storage.Valid() && PlainNames(base, key)
    requires forall u | u in uris :: ParseGraphUri(u) == Some(key) && storage.Old(u, storage.issued)
    modifies storage`files, storage`states, storage`issued
    ensures Safe(storage)
    ensures dest !in old(storage.files) && dest !in uris && !storage.Old(dest, old(storage.issued))
    ensures ParseGraphUri(dest) == Some(Shelf(key))
    ensures r.Ok? ==>
      && (forall u | u in uris :: u in old(storage.files))
      && r.value == Concatenated(Loaded(old(storage.files), uris))
      && |r.value.rows| == StoredRows(old(storage.files), uris)
      && storage.files == old(storage.files)[dest := r.value]
    ensures r.Err? ==>
      r.error.MissingSource? && storage.files == old(storage.files) && exists u :: u in uris && u !in old(storage.files)
  {
    dest := storage.NewPart(base, key);
    PartUriParses(base, key, storage.uuid(old(storage.issued)));
    var read := ReadTables(storage, uris);
    if read.Err? {
      return Err(read.error), dest;
    }
    ghost var before := storage.files;
    ConcatenatedRows(before, uris);
    hide ParseGraphUri, Shelf, Concatenated, PlainNames, Preserved, StoredRows;
    var out, rows := WriteTables(read.value, UnifySchema(read.value));
    storage.Write(dest, out);
    ConcatenationPreserves(before, uris, key, dest, storage.files);
    r := Ok(out);
  }

  method RewriteSources(storage: Storage, base: Uri, uris: seq<Uri>, key: GraphKey, sourceRows: int, options: Options)
    returns (r: Result<ManifestFile>)
    requires storage.Valid() && PlainNames(base, key) && !options.dryRun
    requires forall u | u in uris :: ParseGraphUri(u) == Some(key) && storage.Old(u, storage.issued)
    modifies storage`files, storage`states, storage`issued
    ensures Safe(storage)
    ensures r.Ok? ==>
      && Rewritten(old(storage.files), uris, r.value, options.deleteSource, storage.files)
      && !storage.Old(r.value.uri, old(storage.issued)) && ParseGraphUri(r.value.uri) == Some(Shelf(key))
      && r.value.bytesWritten == storage.sizeOf(storage.files[r.value.uri])
      && (options.strict ==> r.value.rows == sourceRows)
    ensures r.Err? ==>
      r.error.MissingSource? || (options.strict && r.error.RowCountMismatch? && r.error.written != sourceRows)
    ensures Follows(Rewriting(old(storage.files), options, uris, sourceRows), old(storage.files), r.Ok?, storage.files)
    ensures LeavesOld(storage, old(storage.files), old(storage.issued), options, storage.files)
  {
    hide ParseGraphUri, Shelf, Concatenated, PlainNames, Preserved, LeavesOld, Follows, Rewriting, StoredRows, Fresh;
    ghost var before, n := storage.files, storage.issued;
    Unchanged(storage, before, n, options);
    var out, dest := WriteSources(storage, base, uris, key);
    if out.Err? {
      Unread(before, options, uris, sourceRows);
      return Err(out.error);
    }
    PartAdded(storage, before, n, options, dest, out.value, uris, storage.files);
    var rows := |out.value.rows|;
    if options.strict && rows != sourceRows {
      WrongCount(before, options, uris, sourceRows, dest, out.value);
      return Err(RowCountMismatch(key.fileKind, sourceRows, rows));
    }
    var missing: Option<Uri> := None;
    if options.deleteSource {
      missing := RemoveSources(storage, uris, old(storage.files), dest, key);
      PartAdded(storage, before, n, options, dest, out.value, uris, storage.files);
    }
    Removed(before, options, uris, sourceRows, dest, out.value, storage.files);
    if missing.Some? {
      return Err(MissingSource(missing.value));
    }
    FreshAll(uris);
    r := Ok(ManifestFile(dest, rows, storage.sizeOf(out.value)));
  }

  lemma FreshAll(uris: seq<Uri>)
    ensures Distinct(uris) ==> uris[..Fresh(uris)] == uris
  {
  }

  // The three ways in which a rewriting ends: a source is missing, the count is wrong, or the sources go.
  lemma Unread(files: map<Uri, Table>, options: Options, uris: seq<Uri>, rows: int)
    requires exists u :: u in uris && u !in files
    ensures Follows(Rewriting(files, options, uris, rows), files, false, files)
  {
  }

  lemma WrongCount(files: map<Uri, Table>, options: Options, uris: seq<Uri>, rows: int, dest: Uri, t: Table)
    requires AllStored(files, uris) && options.strict && rows != StoredRows(files, uris) && dest !in files
    ensures Follows(Rewriting(files, options, uris, rows), files, false, files[dest := t])
  {
  }

  lemma Removed(
    files: map<Uri, Table>, options: Options, uris: seq<Uri>, rows: int, dest: Uri, t: Table, now: map<Uri, Table>)
    requires AllStored(files, uris) && !(options.strict && rows != StoredRows(files, uris)) && dest !in files
    requires now == files[dest := t] - if options.deleteSource then Paths(uris[..Fresh(uris)]) else {}
    ensures Follows(Rewriting(files, options, uris, rows), files, !options.deleteSource || Distinct(uris), now)
  {
  }

  method CompactKind(storage: Storage, base: Uri, groups: seq<CompactionGroup>, key: GraphKey, options: Options)
    returns (r: Result<ManifestFile>)
    requires storage.Valid()
    requires PlainNames(base, key) && FiledUnder(groups, key)
    requires KnownSources(storage, groups, key.fileKind, storage.issued)
    modifies storage`files, storage`states, storage`issued
    ensures Safe(storage)
    ensures options.dryRun ==> storage.files == old(storage.files)
    ensures r.Ok? ==> forall g | g in groups :: key.fileKind in g.files
    ensures r.Ok? && !options.dryRun ==>
      && Rewritten(old(storage.files), SourceUris(groups, key.fileKind), r.value, options.deleteSource, storage.files)
      && !storage.Old(r.value.uri, old(storage.issued)) && ParseGraphUri(r.value.uri) == Some(Shelf(key))
      && r.value.bytesWritten == storage.sizeOf(storage.files[r.value.uri])
    ensures r.Ok? && (options.strict || options.dryRun) ==> r.value.rows == KindRows(groups, key.fileKind)
    ensures r.Ok? && options.dryRun ==>
      && r.value.rows == Sum(CountsOf(groups, key.fileKind))
      && r.value.bytesWritten == Sum(SizesOf(groups, key.fileKind))
    ensures LeavesOld(storage, old(storage.files), old(storage.issued), options, storage.files)
    ensures Follows(
      JobFate(old(storage.files), options, Job(groups, key.fileKind)), old(storage.files), r.Ok?, storage.files)
  {
    var kind := key.fileKind;
    if exists g :: g in groups && kind !in g.files {
      return Err(MissingKind(kind));
    }
    var sourceRows := KindRows(groups, kind);
    if options.dryRun {
      var dest := storage.NewPart(base, key);
      KindRowsIsSum(groups, kind);
      KindBytesIsSum(groups, kind);
      return Ok(ManifestFile(dest, sourceRows, KindBytes(groups, kind)));
    }
    var uris := SourceUris(groups, kind);
    r := RewriteSources(storage, base, uris, key, sourceRows, options);
  }

  method RemoveSources(
    storage: Storage, uris: seq<Uri>, ghost before: map<Uri, Table>, ghost dest: Uri, ghost key: GraphKey)
    returns (missing: Option<Uri>)
    requires storage.Valid()
    requires forall u | u in uris :: u in before && ParseGraphUri(u) == Some(key)
    requires ParseGraphUri(dest) == Some(Shelf(key)) && dest !in before && dest !in uris
    requires storage.files == before[dest := Concatenated(Loaded(before, uris))]
    modifies storage`files, storage`states
    ensures storage.Valid()
    ensures missing.None? <==> Distinct(uris)
    ensures storage.files == old(storage.files) - Paths(uris[..Fresh(uris)])
    ensures OnlyDeleted(old(storage.files), uris, storage.files)
    ensures |old(storage.states)| <= |storage.states| && storage.states[..|old(storage.states)|] == old(storage.states)
    ensures forall i | |old(storage.states)| <= i < |storage.states| :: Preserved(before, storage.states[i])
  {
    ghost var done;
    missing, done := DeleteSources(storage, uris);
    FreshIs(uris, done);
    SomeDeleted(old(storage.files), uris, done, storage.files);
    forall i | |old(storage.states)| <= i < |storage.states|
      ensures Preserved(before, storage.states[i])
    {
      ConcatenationPreserves(before, uris, key, dest, storage.states[i]);
    }
  }

  // ---------------------------------------------------------------- a batch

  function BatchKey(batch: CompactionBatch, kind: string): GraphKey {
    GraphKey(batch.isEdge, batch.entityType, kind)
  }

  ghost predicate SoundBatch(storage: Storage, base: Uri, batch: CompactionBatch, n: nat) {
    forall k | k in batch.fileKinds ::
      && PlainNames(base, BatchKey(batch, k))
      && FiledUnder(batch.groups, BatchKey(batch, k))
      && KnownSources(storage, batch.groups, k, n)
  }

  // The output for one kind holds the rows of that kind of all groups, in order.
  ghost predicate HoldsKind(
    before: map<Uri, Table>, groups: seq<CompactionGroup>, kind: string, file: ManifestFile, now: map<Uri, Table>)
  {
    && (forall g | g in groups :: kind in g.files && g.files[kind].uri in before)
    && file.uri in now && now[file.uri] == Concatenated(Loaded(before, SourceUris(groups, kind)))
    && file.rows == |now[file.uri].rows|
  }

  ghost predicate IsSource(groups: seq<CompactionGroup>, kinds: seq<string>, u: Uri) {
    exists g, k :: g in groups && k in kinds && k in g.files && g.files[k].uri == u
  }

  // Nothing older than the first n part names was changed or added.
  ghost predicate OlderUnchanged(storage: Storage, before: map<Uri, Table>, n: nat, now: map<Uri, Table>) {
    && (forall u | u in now && storage.Old(u, n) :: u in before)
    && (forall u | u in before && u in now :: now[u] == before[u])
  }

  // What compacting some kinds of a batch did to the files: exactly the sources are gone, and only if
  // asked for; then every entity and kind has the rows it had before.
  ghost predicate Rewrote(
    storage: Storage, before: map<Uri, Table>, n: nat, groups: seq<CompactionGroup>, kinds: seq<string>,
    options: Options, now: map<Uri, Table>)
  {
    && OlderUnchanged(storage, before, n, now)
    && (forall u | u in before :: u in now <==> !(Deletes(options) && IsSource(groups, kinds, u)))
    && (Deletes(options) ==> SameRows(before, now))
  }

  ghost predicate SameRows(before: map<Uri, Table>, now: map<Uri, Table>) {
    forall shelf :: ShelfRows(now, shelf) == ShelfRows(before, shelf)
  }

  // What has been achieved once the given kinds of a batch are done.
  ghost predicate KindsDone(
    storage: Storage, before: map<Uri, Table>, n: nat, batch: CompactionBatch, kinds: seq<string>, options: Options,
    outputs: seq<CompactionOutput>, now: map<Uri, Table>)
  {
    && (options.dryRun ==> now == before)
    && Rewrote(storage, before, n, batch.groups, kinds, options, now)
    && Described(batch, kinds, options, outputs)
    && (!options.dryRun ==> Stored(storage, before, n, batch.groups, kinds, outputs, now) && Filed(outputs))
  }

  // The outputs are stored where their entities and kinds belong.
  ghost predicate Filed(outputs: seq<CompactionOutput>) {
    forall o | o in outputs :: ParseGraphUri(o.file.uri) == Some(Shelf(OutputKey(o)))
  }

  function OutputKey(o: CompactionOutput): GraphKey {
    GraphKey(o.isEdge, o.entityType, o.fileKind)
  }

  method CompactBatch(storage: Storage, base: Uri, batch: CompactionBatch, options: Options)
    returns (r: Result<seq<CompactionOutput>>)
    requires storage.Valid() && SoundBatch(storage, base, batch, storage.issued)
    modifies storage`files, storage`states, storage`issued
    ensures Safe(storage)
    ensures options.dryRun ==> storage.files == old(storage.files)
    ensures r.Ok? ==>
      KindsDone(
        storage, old(storage.files), old(storage.issued), batch, batch.fileKinds, options, r.value, storage.files)
    ensures LeavesOld(storage, old(storage.files), old(storage.issued), options, storage.files)
    ensures Follows(
      RunFate(old(storage.files), options, BatchJobs(batch)), old(storage.files), r.Ok?, storage.files)
  {
    hide KindsDone, LeavesOld, ParseGraphUri, Shelf, Rewritten, Preserved, Follows, RunFate, JobFate, JobsOf;
    var outputs: seq<CompactionOutput> := [];
    var kinds := batch.fileKinds;
    ghost var before, n, past := storage.files, storage.issued, storage.states;
    KindsStart(storage, before, n, batch, options);
    for i := 0 to |kinds|
      invariant storage.Valid() && n <= storage.issued && Safely(past, storage.states)
      invariant KindsDone(storage, before, n, batch, kinds[..i], options, outputs, storage.files)
      invariant Follows(RunFate(before, options, JobsOf(batch.groups, kinds[..i])), before, true, storage.files)
    {
      KindsLeaveOld(storage, before, n, batch, kinds[..i], options, outputs, storage.files);
      var key := BatchKey(batch, kinds[i]);
      assert kinds[i] in batch.fileKinds;
      ghost var mid, issued, midStates := storage.files, storage.issued, storage.states;
      var written := CompactKind(storage, base, batch.groups, key, options);
      SafelyTrans(past, midStates, storage.states);
      LeavesOldTrans(storage, before, n, options, mid, issued, storage.files);
      KindFate(storage, before, n, batch, i, options, mid, issued, written.Ok?, storage.files);
      if written.Err? {
        return Err(written.error);
      }
      var output := CompactionOutput(batch.entityType, batch.isEdge, kinds[i], written.value);
      NextKindDone(storage, before, n, batch, kinds[..i], outputs, key, options, mid, output, storage.files);
      assert kinds[..i + 1] == kinds[..i] + [kinds[i]];
      outputs := outputs + [output];
    }
    assert kinds[..|kinds|] == kinds;
    KindsLeaveOld(storage, before, n, batch, kinds, options, outputs, storage.files);
    r := Ok(outputs);
  }

  lemma KindsStart(storage: Storage, before: map<Uri, Table>, n: nat, batch: CompactionBatch, options: Options)
    requires forall u | u in before :: storage.Old(u, n)
    ensures KindsDone(storage, before, n, batch, [], options, [], before)
    ensures LeavesOld(storage, before, n, options, before)
    ensures Follows(RunFate(before, options, JobsOf(batch.groups, [])), before, true, before)
  {
  }

  // How a run goes on that has gone well so far.
  lemma FateGoesOn(
    storage: Storage, before: map<Uri, Table>, n: nat, options: Options, a: seq<Job>, mid: map<Uri, Table>,
    issued: nat, b: seq<Job>, ok: bool, now: map<Uri, Table>)
    requires n <= issued && forall u | u in before || u in SourcesOf(b) :: storage.Old(u, n)
    requires LeavesOld(storage, before, n, options, mid) && LeavesOld(storage, mid, issued, options, now)
    requires Follows(RunFate(before, options, a), before, true, mid)
    requires Follows(RunFate(mid, options, b), mid, ok, now)
    ensures Follows(RunFate(before, options, a + b), before, ok, now)
  {
    hide RunFate, SourcesOf;
    forall u | u in before && u in now
      ensures u in mid
    {
      assert storage.Old(u, issued);
    }
    FollowsOn(before, options, a, mid, b, ok, now);
  }

  lemma KindFate(
    storage: Storage, before: map<Uri, Table>, n: nat, batch: CompactionBatch, i: nat, options: Options,
    mid: map<Uri, Table>, issued: nat, ok: bool, now: map<Uri, Table>)
    requires i < |batch.fileKinds| && n <= issued && forall u | u in before :: storage.Old(u, n)
    requires KnownSources(storage, batch.groups, batch.fileKinds[i], n)
    requires LeavesOld(storage, before, n, options, mid) && LeavesOld(storage, mid, issued, options, now)
    requires Follows(RunFate(before, options, JobsOf(batch.groups, batch.fileKinds[..i])), before, true, mid)
    requires Follows(JobFate(mid, options, Job(batch.groups, batch.fileKinds[i])), mid, ok, now)
    ensures Follows(RunFate(before, options, JobsOf(batch.groups, batch.fileKinds[..i + 1])), before, ok, now)
    ensures !ok ==> Follows(RunFate(before, options, BatchJobs(batch)), before, ok, now)
  {
    hide RunFate, JobFate, LeavesOld;
    var kinds, job := batch.fileKinds, Job(batch.groups, batch.fileKinds[i]);
    JobsSplit(batch.groups, kinds, i);
    OneJob(mid, options, job);
    assert SourcesOf([job]) == JobSources(job) by {
      assert [job][..0] == [];
    }
    FateGoesOn(storage, before, n, options, JobsOf(batch.groups, kinds[..i]), mid, issued, [job], ok, now);
    if !ok {
      FailureIsFinal(before, options, JobsOf(batch.groups, kinds[..i + 1]), JobsOf(batch.groups, kinds[i + 1..]));
    }
  }

  lemma KindsLeaveOld(
    storage: Storage, before: map<Uri, Table>, n: nat, batch: CompactionBatch, kinds: seq<string>, options: Options,
    outputs: seq<CompactionOutput>, now: map<Uri, Table>)
    requires KindsDone(storage, before, n, batch, kinds, options, outputs, now)
    ensures LeavesOld(storage, before, n, options, now) && (options.dryRun ==> now == before)
  {
    hide Described, Stored, SameRows, OlderUnchanged;
  }

  lemma NextKindDone(
    storage: Storage, before: map<Uri, Table>, n: nat, batch: CompactionBatch, kinds: seq<string>,
    outputs: seq<CompactionOutput>, key: GraphKey, options: Options,
    mid: map<Uri, Table>, o: CompactionOutput, now: map<Uri, Table>)
    requires KindsDone(storage, before, n, batch, kinds, options, outputs, mid)
    requires forall u | u in before :: storage.Old(u, n)
    requires forall g | g in batch.groups :: key.fileKind in g.files
    requires FiledUnder(batch.groups, key) && KnownSources(storage, batch.groups, key.fileKind, n)
    requires OutputOf(batch, key.fileKind, options, o) && OutputKey(o) == key
    requires if options.dryRun then now == before else
      && Rewritten(mid, SourceUris(batch.groups, key.fileKind), o.file, options.deleteSource, now)
      && !storage.Old(o.file.uri, n) && ParseGraphUri(o.file.uri) == Some(Shelf(key))
      && DescribesFile(storage, o.file, now)
    ensures KindsDone(storage, before, n, batch, kinds + [key.fileKind], options, outputs + [o], now)
  {
    if !options.dryRun {
      NextKind(storage, before, n, batch.groups, kinds, key, options, mid, o.file, now);
      NextOutputs(storage, before, n, batch.groups, kinds, outputs, key.fileKind, options, mid, o, now);
    }
  }

  // What is said of a file is so.
  ghost predicate DescribesFile(storage: Storage, file: ManifestFile, now: map<Uri, Table>) {
    && file.uri in now && file.rows == |now[file.uri].rows|
    && file.bytesWritten == storage.sizeOf(now[file.uri])
  }

  // The outputs of the kinds done so far are stored, under names handed out after the first n.
  ghost predicate Stored(
    storage: Storage, before: map<Uri, Table>, n: nat, groups: seq<CompactionGroup>, kinds: seq<string>,
    outputs: seq<CompactionOutput>, now: map<Uri, Table>)
  {
    |outputs| == |kinds| && forall j | 0 <= j < |kinds| ::
      && HoldsKind(before, groups, kinds[j], outputs[j].file, now) && !storage.Old(outputs[j].file.uri, n)
      && DescribesFile(storage, outputs[j].file, now)
  }

  lemma NextOutputs(
    storage: Storage, before: map<Uri, Table>, n: nat, groups: seq<CompactionGroup>, kinds: seq<string>,
    outputs: seq<CompactionOutput>, kind: string, options: Options,
    mid: map<Uri, Table>, o: CompactionOutput, now: map<Uri, Table>)
    requires Stored(storage, before, n, groups, kinds, outputs, mid)
    requires forall g | g in groups :: kind in g.files
    requires Rewritten(mid, SourceUris(groups, kind), o.file, options.deleteSource, now)
    requires forall u | u in SourceUris(groups, kind) :: storage.Old(u, n)
    requires HoldsKind(before, groups, kind, o.file, now) && !storage.Old(o.file.uri, n)
    requires DescribesFile(storage, o.file, now)
    ensures Stored(storage, before, n, groups, kinds + [kind], outputs + [o], now)
  {
    forall j | 0 <= j < |kinds|
      ensures HoldsKind(before, groups, kinds[j], outputs[j].file, now)
      ensures DescribesFile(storage, outputs[j].file, now)
    {
      assert HoldsKind(before, groups, kinds[j], outputs[j].file, mid);
    }
  }

  lemma NextKind(
    storage: Storage, before: map<Uri, Table>, n: nat, groups: seq<CompactionGroup>, kinds: seq<string>,
    key: GraphKey, options: Options, mid: map<Uri, Table>, written: ManifestFile, now: map<Uri, Table>)
    requires Rewrote(storage, before, n, groups, kinds, options, mid) && !options.dryRun
    requires forall u | u in before :: storage.Old(u, n)
    requires forall g | g in groups :: key.fileKind in g.files
    requires FiledUnder(groups, key) && KnownSources(storage, groups, key.fileKind, n)
    requires Rewritten(mid, SourceUris(groups, key.fileKind), written, options.deleteSource, now)
    requires !storage.Old(written.uri, n) && ParseGraphUri(written.uri) == Some(Shelf(key))
    ensures Rewrote(storage, before, n, groups, kinds + [key.fileKind], options, now)
    ensures HoldsKind(before, groups, key.fileKind, written, now)
    ensures forall u | u in SourceUris(groups, key.fileKind) :: storage.Old(u, n)
  {
    var kind := key.fileKind;
    var uris := SourceUris(groups, kind);
    SourceUrisListed(groups, kind);
    SourcesGrow(groups, kinds, kind);
    assert forall u | u in uris :: storage.Old(u, n) && ParseGraphUri(u) == Some(key);
    NextFiles(storage, before, n, uris, options.deleteSource, mid, written, now);
    if options.deleteSource {
      NextRows(before, uris, key, mid, written, now);
    }
  }

  lemma NextRows(
    before: map<Uri, Table>, uris: seq<Uri>, key: GraphKey, mid: map<Uri, Table>, written: ManifestFile,
    now: map<Uri, Table>)
    requires SameRows(before, mid) && Rewritten(mid, uris, written, true, now)
    requires forall u | u in uris :: ParseGraphUri(u) == Some(key)
    requires ParseGraphUri(written.uri) == Some(Shelf(key))
    ensures SameRows(before, now)
  {
    forall shelf
      ensures ShelfRows(now, shelf) == ShelfRows(before, shelf)
    {
      RewritingConserves(mid, uris, key, written, now, shelf);
    }
  }

  lemma NextFiles(
    storage: Storage, before: map<Uri, Table>, n: nat, uris: seq<Uri>, deleteSource: bool,
    mid: map<Uri, Table>, written: ManifestFile, now: map<Uri, Table>)
    requires OlderUnchanged(storage, before, n, mid)
    requires forall u | u in before || u in uris :: storage.Old(u, n)
    requires Rewritten(mid, uris, written, deleteSource, now) && !storage.Old(written.uri, n)
    ensures OlderUnchanged(storage, before, n, now)
    ensures forall u | u in before :: u in now <==> u in mid && !(deleteSource && u in uris)
    ensures forall u | u in uris :: u in before
    ensures written.uri in now && now[written.uri] == Concatenated(Loaded(before, uris))
  {
    assert forall u | u in uris :: u in before && mid[u] == before[u];
    assert Loaded(mid, uris) == Loaded(before, uris);
  }

  lemma SourceUrisListed(groups: seq<CompactionGroup>, kind: string)
    requires forall g | g in groups :: kind in g.files
    ensures forall g | g in groups :: g.files[kind].uri in SourceUris(groups, kind)
    ensures forall u | u in SourceUris(groups, kind) :: exists g :: g in groups && g.files[kind].uri == u
  {
    forall g | g in groups
      ensures g.files[kind].uri in SourceUris(groups, kind)
    {
      var i :| 0 <= i < |groups| && groups[i] == g;
      assert SourceUris(groups, kind)[i] == g.files[kind].uri;
    }
  }

  lemma SourcesGrow(groups: seq<CompactionGroup>, kinds: seq<string>, kind: string)
    requires forall g | g in groups :: kind in g.files
    ensures forall u ::
      IsSource(groups, kinds + [kind], u) <==> IsSource(groups, kinds, u) || u in SourceUris(groups, kind)
  {
    SourceUrisListed(groups, kind);
    forall u
      ensures IsSource(groups, kinds + [kind], u) <==> IsSource(groups, kinds, u) || u in SourceUris(groups, kind)
    {
      MoreSources(groups, kinds, kind, u);
    }
  }

  lemma MoreSources(groups: seq<CompactionGroup>, kinds: seq<string>, kind: string, u: Uri)
    requires forall g | g in groups :: kind in g.files
    ensures IsSource(groups, kinds + [kind], u) <==>
      IsSource(groups, kinds, u) || exists g :: g in groups && g.files[kind].uri == u
  {
    var all := kinds + [kind];
    assert kind in all && forall k | k in kinds :: k in all;
    if IsSource(groups, kinds, u) {
      var g, k :| g in groups && k in kinds && k in g.files && g.files[k].uri == u;
      assert k in all;
    } else if g :| g in groups && g.files[kind].uri == u {
      assert kind in g.files;
    }
  }

  // One output per kind, naming its entity; unless row counts go unchecked, it has as many rows as
  // the manifests of the sources say.
  ghost predicate Described(
    batch: CompactionBatch, kinds: seq<string>, options: Options, outputs: seq<CompactionOutput>)
  {
    |outputs| == |kinds| && forall j | 0 <= j < |kinds| :: OutputOf(batch, kinds[j], options, outputs[j])
  }

  ghost predicate OutputOf(batch: CompactionBatch, kind: string, options: Options, o: CompactionOutput) {
    && o.entityType == batch.entityType && o.isEdge == batch.isEdge && o.fileKind == kind
    && (options.strict || options.dryRun ==> o.file.rows == KindRows(batch.groups, kind))
    && (options.dryRun ==> o.file.bytesWritten == Sum(SizesOf(batch.groups, kind)))
  }

  // ---------------------------------------------------------------- conservation of rows

  ghost function FilesRows(files: map<Uri, Table>, uris: seq<Uri>, shelf: GraphKey): multiset<Row>
    requires forall u | u in uris :: u in files
  {
    if uris == [] then multiset{}
    else FilesRows(files, uris[..|uris| - 1], shelf) + FileRows(uris[|uris| - 1], files[uris[|uris| - 1]], shelf)
  }

  ghost function Without(files: map<Uri, Table>, uris: seq<Uri>): map<Uri, Table> {
    if uris == [] then files else Without(files, uris[..|uris| - 1]) - {uris[|uris| - 1]}
  }

  lemma {:induction false} WithoutIsDifference(files: map<Uri, Table>, uris: seq<Uri>)
    ensures Without(files, uris) == files - (set u | u in uris)
  {
    if uris != [] {
      var m := |uris| - 1;
      WithoutIsDifference(files, uris[..m]);
      assert (set u | u in uris) == (set u | u in uris[..m]) + {uris[m]};
    }
  }

  lemma {:induction false} ShelfRowsWithoutAll(files: map<Uri, Table>, uris: seq<Uri>, shelf: GraphKey)
    requires Distinct(uris) && forall u | u in uris :: u in files
    ensures ShelfRows(files, shelf) == ShelfRows(Without(files, uris), shelf) + FilesRows(files, uris, shelf)
  {
    if uris != [] {
      hide ShelfRows, FileRows;
      var rest, last := uris[..|uris| - 1], uris[|uris| - 1];
      ShelfRowsWithoutAll(files, rest, shelf);
      WithoutIsDifference(files, rest);
      ShelfRowsWithout(Without(files, rest), last, shelf);
      Regroup(
        ShelfRows(Without(files, uris), shelf), FileRows(last, files[last], shelf), FilesRows(files, rest, shelf));
    }
  }

  lemma Regroup(a: multiset<Row>, b: multiset<Row>, c: multiset<Row>)
    ensures a + b + c == a + (c + b)
  {
  }

  lemma {:induction false} FilesRowsAreContents(files: map<Uri, Table>, uris: seq<Uri>, key: GraphKey, shelf: GraphKey)
    requires forall u | u in uris :: u in files && ParseGraphUri(u) == Some(key)
    ensures FilesRows(files, uris, shelf)
      == if Shelf(key) == shelf then multiset(Contents(Loaded(files, uris))) else multiset{}
    decreases |uris|
  {
    if uris != [] {
      var m := |uris| - 1;
      FilesRowsAreContents(files, uris[..m], key, shelf);
      assert Loaded(files, uris)[..m] == Loaded(files, uris[..m]);
    }
  }

  // Replacing sources by their concatenation keeps the multiset of rows of every entity and kind.
  lemma RewritingConserves(
    before: map<Uri, Table>, uris: seq<Uri>, key: GraphKey, written: ManifestFile, now: map<Uri, Table>,
    shelf: GraphKey)
    requires Rewritten(before, uris, written, true, now)
    requires forall u | u in uris :: ParseGraphUri(u) == Some(key)
    requires ParseGraphUri(written.uri) == Some(Shelf(key))
    ensures ShelfRows(now, shelf) == ShelfRows(before, shelf)
  {
    var table := Concatenated(Loaded(before, uris));
    var grown := before[written.uri := table];
    WithoutIsDifference(grown, uris);
    ShelfRowsWithoutAll(grown, uris, shelf);
    ShelfRowsWith(before, written.uri, table, shelf);
    SourcesMakeOutput(before, uris, key, written.uri, shelf);
    var moved := FileRows(written.uri, table, shelf);
    Cancel(ShelfRows(now, shelf), ShelfRows(before, shelf), moved);
  }

  lemma Cancel(a: multiset<Row>, b: multiset<Row>, c: multiset<Row>)
    requires a + c == b + c
    ensures a == b
  {
    assert a == (a + c) - c;
    assert b == (b + c) - c;
  }

  lemma SourcesMakeOutput(before: map<Uri, Table>, uris: seq<Uri>, key: GraphKey, dest: Uri, shelf: GraphKey)
    requires forall u | u in uris :: u in before && ParseGraphUri(u) == Some(key)
    requires dest !in uris && ParseGraphUri(dest) == Some(Shelf(key))
    ensures var table := Concatenated(Loaded(before, uris));
      FilesRows(before[dest := table], uris, shelf) == FileRows(dest, table, shelf)
  {
    var tables := Loaded(before, uris);
    var grown := before[dest := Concatenated(tables)];
    assert Loaded(grown, uris) == tables;
    FilesRowsAreContents(grown, uris, key, shelf);
    ConcatenatedContent(tables);
  }

  lemma ShelfRowsWith(files: map<Uri, Table>, u: Uri, t: Table, shelf: GraphKey)
    requires u !in files
    ensures ShelfRows(files[u := t], shelf) == ShelfRows(files, shelf) + FileRows(u, t, shelf)
  {
    assert files[u := t] - {u} == files;
    ShelfRowsWithout(files[u := t], u, shelf);
  }

  // ---------------------------------------------------------------- rows of different kinds line up

  function SourceCounts(files: map<Uri, Table>, groups: seq<CompactionGroup>, kind: string): seq<nat>
    requires forall g | g in groups :: kind in g.files && g.files[kind].uri in files
  {
    Lengths(Loaded(files, SourceUris(groups, kind)))
  }

  // Row i of the output for a kind: where it comes from, and that nothing but padding was done to it.
  lemma OutputRowOrigin(
    before: map<Uri, Table>, groups: seq<CompactionGroup>, kind: string, file: ManifestFile, now: map<Uri, Table>,
    i: nat)
    requires HoldsKind(before, groups, kind, file, now) && i < |now[file.uri].rows|
    ensures |now[file.uri].rows| == Total(SourceCounts(before, groups, kind))
    ensures var o := Locate(SourceCounts(before, groups, kind), i);
      && o.source < |groups|
      && var source := before[groups[o.source].files[kind].uri];
        && o.row < |source.rows|
        && now[file.uri].rows[i] == AlignRow(source.rows[o.row], now[file.uri].columns)
  {
    var tables := Loaded(before, SourceUris(groups, kind));
    AlignedRowOrigin(tables, UnifySchema(tables), i);
  }

  // The outputs for kinds a and b agree, position by position, on which row of which group they hold
  // exactly when every group has as many rows of kind a as of kind b.
  lemma RowsLineUpExactly(before: map<Uri, Table>, groups: seq<CompactionGroup>, a: string, b: string)
    requires forall g | g in groups :: a in g.files && g.files[a].uri in before
    requires forall g | g in groups :: b in g.files && g.files[b].uri in before
    ensures SameOrigins(SourceCounts(before, groups, a), SourceCounts(before, groups, b))
      <==> forall g | g in groups :: |before[g.files[a].uri].rows| == |before[g.files[b].uri].rows|
  {
    var m, n := SourceCounts(before, groups, a), SourceCounts(before, groups, b);
    AlignedExactlyWhenCountsAgree(m, n);
    assert forall i | 0 <= i < |groups| ::
      m[i] == |before[groups[i].files[a].uri].rows| && n[i] == |before[groups[i].files[b].uri].rows|;
    if m == n {
      forall g | g in groups
        ensures |before[g.files[a].uri].rows| == |before[g.files[b].uri].rows|
      {
        var i :| 0 <= i < |groups| && groups[i] == g;
        assert m[i] == n[i];
      }
    }
  }
}
