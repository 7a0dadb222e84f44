// Grouping manifests and a whole compaction run (retikon_core/compaction/runner.py).

module CompactionRunner {
  import opened BatchCompaction
  import opened CompactionFate
  import opened CompactionPlanning
  import opened CompactionPolicies
  import opened CompactionTypes
  import opened GraphStorage
  import opened Optionals
  import opened Sequences
  import opened Tables

  // ---------------------------------------------------------------- a whole run

  // All rows of u are a block of one of the outputs.
  ghost predicate Carried(before: map<Uri, Table>, outputs: seq<CompactionOutput>, u: Uri, now: map<Uri, Table>) {
    u in before && exists o :: o in outputs && o.file.uri in now && Block(Content(before[u]), Content(now[o.file.uri]))
  }

  ghost predicate CarriedGroup(
    before: map<Uri, Table>, outputs: seq<CompactionOutput>, g: CompactionGroup, now: map<Uri, Table>)
  {
    forall kind | kind in g.files :: Carried(before, outputs, g.files[kind].uri, now)
  }

  // Where a run stands, compared with the files it started from, once the given groups are compacted.
  ghost predicate RunProgress(
    storage: Storage, before: map<Uri, Table>, n: nat, options: Options,
    outputs: seq<CompactionOutput>, done: seq<CompactionGroup>, now: map<Uri, Table>)
  {
    && FilesProgress(storage, before, n, options, now)
    && (!options.dryRun ==> OutputsProgress(storage, before, n, outputs, done, now))
  }

  ghost predicate FilesProgress(
    storage: Storage, before: map<Uri, Table>, n: nat, options: Options, now: map<Uri, Table>)
  {
    && OlderUnchanged(storage, before, n, now)
    && (Deletes(options) ==> SameRows(before, now))
    && (!Deletes(options) ==> forall u | u in before :: u in now)
    && (options.dryRun ==> now == before)
  }

  ghost predicate OutputsProgress(
    storage: Storage, before: map<Uri, Table>, n: nat,
    outputs: seq<CompactionOutput>, done: seq<CompactionGroup>, now: map<Uri, Table>)
  {
    && (forall o | o in outputs :: DescribesFile(storage, o.file, now) && !storage.Old(o.file.uri, n))
    && (forall g | g in done :: CarriedGroup(before, outputs, g, now))
  }

  lemma NextFiles(
    storage: Storage, before: map<Uri, Table>, n: nat, options: Options, mid: map<Uri, Table>, issued: nat,
    batch: CompactionBatch, now: map<Uri, Table>)
    requires FilesProgress(storage, before, n, options, mid) && n <= issued
    requires forall u | u in before :: storage.Old(u, n)
    requires options.dryRun ==> now == mid
    requires Rewrote(storage, mid, issued, batch.groups, batch.fileKinds, options, now)
    ensures FilesProgress(storage, before, n, options, now)
  {
    hide OlderUnchanged, ShelfRows, SameRows, IsSource;
    StillOlder(storage, before, n, mid, issued, now);
    if Deletes(options) {
      SameRowsTrans(before, mid, now);
    }
  }

  lemma SameRowsTrans(a: map<Uri, Table>, b: map<Uri, Table>, c: map<Uri, Table>)
    requires SameRows(a, b) && SameRows(b, c)
    ensures SameRows(a, c)
  {
    hide ShelfRows;
    forall shelf
      ensures ShelfRows(c, shelf) == ShelfRows(a, shelf)
    {
      assert ShelfRows(b, shelf) == ShelfRows(a, shelf);
    }
  }

  lemma NextBatch(
    storage: Storage, before: map<Uri, Table>, n: nat, options: Options,
    outputs: seq<CompactionOutput>, done: seq<CompactionGroup>, mid: map<Uri, Table>, issued: nat,
    batch: CompactionBatch, more: seq<CompactionOutput>, now: map<Uri, Table>)
    requires RunProgress(storage, before, n, options, outputs, done, mid) && n <= issued
    requires forall u | u in before :: storage.Old(u, n)
    requires forall u | u in mid :: storage.Old(u, issued)
    requires KindsDone(storage, mid, issued, batch, batch.fileKinds, options, more, now)
    requires forall g, kind | g in batch.groups && kind in g.files ::
      kind in batch.fileKinds && storage.Old(g.files[kind].uri, n)
    ensures RunProgress(storage, before, n, options, outputs + more, done + batch.groups, now)
  {
    hide CarriedGroup, FilesProgress, Described;
    NextFiles(storage, before, n, options, mid, issued, batch, now);
    if !options.dryRun {
      forall o | o in outputs
        ensures o.file.uri in now && now[o.file.uri] == mid[o.file.uri]
      {
        assert !IsSource(batch.groups, batch.fileKinds, o.file.uri);
      }
      forall o | o in more
        ensures DescribesFile(storage, o.file, now) && !storage.Old(o.file.uri, n)
      {
        var j :| 0 <= j < |more| && more[j] == o;
        assert HoldsKind(mid, batch.groups, batch.fileKinds[j], o.file, now);
      }
      forall g | g in done
        ensures CarriedGroup(before, outputs + more, g, now)
      {
        CarriedOn(before, outputs, more, g, mid, now);
      }
      forall g | g in batch.groups
        ensures CarriedGroup(before, outputs + more, g, now)
      {
        OlderOf(storage, before, n, options, mid);
        BatchCarries(storage, before, n, mid, issued, batch, outputs, more, g, now);
      }
    }
  }

  lemma OlderOf(storage: Storage, before: map<Uri, Table>, n: nat, options: Options, now: map<Uri, Table>)
    requires FilesProgress(storage, before, n, options, now)
    ensures OlderUnchanged(storage, before, n, now)
  {
  }

  lemma CarriedOn(
    before: map<Uri, Table>, outputs: seq<CompactionOutput>, more: seq<CompactionOutput>, g: CompactionGroup,
    mid: map<Uri, Table>, now: map<Uri, Table>)
    requires CarriedGroup(before, outputs, g, mid)
    requires forall o | o in outputs && o.file.uri in mid :: o.file.uri in now && now[o.file.uri] == mid[o.file.uri]
    ensures CarriedGroup(before, outputs + more, g, now)
  {
    forall kind | kind in g.files
      ensures Carried(before, outputs + more, g.files[kind].uri, now)
    {
      assert Carried(before, outputs, g.files[kind].uri, mid);
    }
  }

  lemma BatchCarries(
    storage: Storage, before: map<Uri, Table>, n: nat, mid: map<Uri, Table>, issued: nat, batch: CompactionBatch,
    outputs: seq<CompactionOutput>, more: seq<CompactionOutput>, g: CompactionGroup, now: map<Uri, Table>)
    requires OlderUnchanged(storage, before, n, mid)
    requires Stored(storage, mid, issued, batch.groups, batch.fileKinds, more, now)
    requires g in batch.groups
    requires forall kind | kind in g.files :: kind in batch.fileKinds && storage.Old(g.files[kind].uri, n)
    ensures CarriedGroup(before, outputs + more, g, now)
  {
    forall kind | kind in g.files
      ensures Carried(before, outputs + more, g.files[kind].uri, now)
    {
      var j :| 0 <= j < |batch.fileKinds| && batch.fileKinds[j] == kind;
      var o, u := more[j], g.files[kind].uri;
      assert HoldsKind(mid, batch.groups, batch.fileKinds[j], o.file, now);
      SourceCarried(mid, batch.groups, kind, o.file, g, now);
      assert o in outputs + more && mid[u] == before[u];
    }
  }

  lemma SourceCarried(
    before: map<Uri, Table>, groups: seq<CompactionGroup>, kind: string, file: ManifestFile, g: CompactionGroup,
    now: map<Uri, Table>)
    requires HoldsKind(before, groups, kind, file, now) && g in groups
    ensures Block(Content(before[g.files[kind].uri]), Content(now[file.uri]))
  {
    var i :| 0 <= i < |groups| && groups[i] == g;
    var tables := Loaded(before, SourceUris(groups, kind));
    SourceIsBlock(tables, i);
    ConcatenatedContent(tables);
  }

  // ---------------------------------------------------------------- row counts for the manifest

  function MainKind(isEdge: bool): string {
    if isEdge then "adj_list" else "core"
  }

  // Rows written for a type: those of the files that hold one row per vertex or edge.
  function MainRows(outputs: seq<CompactionOutput>, entityType: string): int {
    if outputs == [] then 0
    else
      var o := outputs[|outputs| - 1];
      MainRows(outputs[..|outputs| - 1], entityType)
      + if o.entityType == entityType && o.fileKind == MainKind(o.isEdge) then o.file.rows else 0
  }

  lemma {:induction false} MainRowsAppend(a: seq<CompactionOutput>, b: seq<CompactionOutput>, entityType: string)
    ensures MainRows(a + b, entityType) == MainRows(a, entityType) + MainRows(b, entityType)
  {
    if b == [] {
      assert a + b == a;
    } else {
      assert (a + b)[..|a + b| - 1] == a + b[..|b| - 1];
      MainRowsAppend(a, b[..|b| - 1], entityType);
    }
  }

  lemma {:induction false} MainRowsOfBatch(
    batch: CompactionBatch, kinds: seq<string>, options: Options, outputs: seq<CompactionOutput>, entityType: string)
    requires Distinct(kinds) && Described(batch, kinds, options, outputs)
    requires options.strict || options.dryRun
    ensures MainRows(outputs, entityType)
      == if entityType == batch.entityType && MainKind(batch.isEdge) in kinds
         then KindRows(batch.groups, MainKind(batch.isEdge)) else 0
  {
    if kinds != [] {
      var m := |kinds| - 1;
      MainRowsOfBatch(batch, kinds[..m], options, outputs[..m], entityType);
      assert OutputOf(batch, kinds[m], options, outputs[m]);
      assert kinds == kinds[..m] + [kinds[m]];
      assert kinds[m] !in kinds[..m];
    }
  }

  // Groups of one entity with sources the storage can vouch for.
  ghost predicate SoundGroups(storage: Storage, base: Uri, groups: seq<CompactionGroup>, n: nat) {
    forall g, kind | g in groups && kind in g.files ::
      && ParseGraphUri(g.files[kind].uri) == Some(GraphKey(g.isEdge, g.entityType, kind))
      && PlainNames(base, GraphKey(g.isEdge, g.entityType, kind))
      && storage.Old(g.files[kind].uri, n)
  }

  // The rows written belong to one type and add up to the given number.
  ghost predicate OnlyRows(outputs: seq<CompactionOutput>, entityType: string, rows: int) {
    forall t :: MainRows(outputs, t) == if t == entityType then rows else 0
  }

  lemma BatchRows(
    batch: CompactionBatch, options: Options, more: seq<CompactionOutput>, written: seq<CompactionOutput>, rows: int,
    batchRows: int)
    requires Distinct(batch.fileKinds) && Described(batch, batch.fileKinds, options, more)
    requires options.strict || options.dryRun
    requires OnlyRows(written, batch.entityType, rows)
    requires var main := MainKind(batch.isEdge);
      batchRows == if main in batch.fileKinds then KindRows(batch.groups, main) else 0
    ensures OnlyRows(written + more, batch.entityType, rows + batchRows)
  {
    forall t
      ensures MainRows(written + more, t) == if t == batch.entityType then rows + batchRows else 0
    {
      MainRowsAppend(written, more, t);
      MainRowsOfBatch(batch, batch.fileKinds, options, more, t);
    }
  }

  lemma Associative<T>(a: seq<T>, b: seq<T>, c: seq<T>)
    ensures a + b + c == a + (b + c)
  {
  }

  lemma PlannedIsSound(
    storage: Storage, base: Uri, groups: seq<CompactionGroup>, e: EntityKey, batch: CompactionBatch, n: nat, m: nat)
    requires SoundGroups(storage, base, groups, n) && PlannedFor(groups, e, batch) && n <= m
    ensures SoundBatch(storage, base, batch, m)
    ensures forall g, kind | g in batch.groups && kind in g.files ::
      kind in batch.fileKinds && storage.Old(g.files[kind].uri, n)
  {
    assert batch.groups[0] in batch.groups;
  }

  // Where a run stands within one entity: what RunProgress says, and the rows counted so far.
  ghost predicate EntityProgress(
    storage: Storage, before: map<Uri, Table>, n: nat, options: Options, outputs: seq<CompactionOutput>,
    done: seq<CompactionGroup>, e: EntityKey, written: seq<CompactionOutput>, covered: seq<CompactionGroup>, rows: int,
    now: map<Uri, Table>)
  {
    && RunProgress(storage, before, n, options, outputs + written, done + covered, now)
    && (options.strict || options.dryRun ==> OnlyRows(written, e.entityType, rows))
  }

  lemma NextEntityBatch(
    storage: Storage, before: map<Uri, Table>, n: nat, options: Options, outputs: seq<CompactionOutput>,
    done: seq<CompactionGroup>, e: EntityKey, written: seq<CompactionOutput>, covered: seq<CompactionGroup>, rows: int,
    mid: map<Uri, Table>, issued: nat, batch: CompactionBatch, more: seq<CompactionOutput>, batchRows: int,
    now: map<Uri, Table>)
    requires EntityProgress(storage, before, n, options, outputs, done, e, written, covered, rows, mid) && n <= issued
    requires forall u | u in before :: storage.Old(u, n)
    requires forall u | u in mid :: storage.Old(u, issued)
    requires KindsDone(storage, mid, issued, batch, batch.fileKinds, options, more, now)
    requires forall g, kind | g in batch.groups && kind in g.files ::
      kind in batch.fileKinds && storage.Old(g.files[kind].uri, n)
    requires Distinct(batch.fileKinds) && batch.entityType == e.entityType && batch.isEdge == e.isEdge
    requires var main := MainKind(e.isEdge);
      batchRows == if main in batch.fileKinds then KindRows(batch.groups, main) else 0
    ensures EntityProgress(storage, before, n, options, outputs, done, e, written + more, covered + batch.groups,
                           rows + batchRows, now)
  {
    NextBatch(storage, before, n, options, outputs + written, done + covered, mid, issued, batch, more, now);
    Associative(outputs, written, more);
    Associative(done, covered, batch.groups);
    if options.strict || options.dryRun {
      BatchRows(batch, options, more, written, rows, batchRows);
    }
  }

  method CompactEntity(
    storage: Storage, base: Uri, policy: CompactionPolicy, options: Options, groups: seq<CompactionGroup>, e: EntityKey,
    ghost before: map<Uri, Table>, ghost n: nat, ghost outputs: seq<CompactionOutput>, ghost done: seq<CompactionGroup>)
    returns (r: Result<seq<CompactionOutput>>, rows: int, ghost covered: seq<CompactionGroup>)
    requires storage.Valid() && SoundGroups(storage, base, groups, n) && n <= storage.issued
    requires forall u | u in before :: storage.Old(u, n)
    requires forall g | g in groups :: exists kind :: kind in g.files
    requires RunProgress(storage, before, n, options, outputs, done, storage.files)
    modifies storage`files, storage`states, storage`issued
    ensures Safe(storage)
    ensures r.Ok? ==>
      EntityProgress(storage, before, n, options, outputs, done, e, r.value, covered, rows, storage.files)
    ensures r.Ok? ==> forall g :: g in covered <==> Eligible(groups, g) && EntityOf(g) == e
    ensures LeavesOld(storage, old(storage.files), old(storage.issued), options, storage.files)
    ensures r.Ok? && !options.dryRun ==> Belong(r.value, groups)
    ensures Follows(
      RunFate(old(storage.files), options, AllJobs(EntityPlan(policy, groups, e))), old(storage.files), r.Ok?,
      storage.files)
  {
    hide LeavesOld, SoundBatch, RunProgress, KindsDone, Belong, Eligible, Follows, RunFate, AllJobs, EntityStands;
    hide EntityPlanned, SoundGroups, EntityPlan, Sum, SizesOf, CountsOf, KindRows;
    covered := [];
    rows := 0;
    var batches := PlanEntity(policy, groups, e);
    var written: seq<CompactionOutput> := [];
    ghost var start, from, past := storage.files, storage.issued, storage.states;
    AsPlanned(groups, e, batches);
    EntityStarts(storage, before, n, options, groups, outputs, done, e, batches, start, from);
    for b := 0 to |batches|
      invariant storage.Valid() && from <= storage.issued && Safely(past, storage.states)
      invariant EntityStands(
        storage, before, n, options, groups, outputs, done, e, batches, b, written, covered, rows, start, from,
        storage.files)
    {
      var batch := batches[b];
      PlannedBatch(storage, base, groups, e, batches, b, n, storage.issued);
      ghost var mid, issued, midStates := storage.files, storage.issued, storage.states;
      var more := CompactBatch(storage, base, batch, options);
      SafelyTrans(past, midStates, storage.states);
      if more.Err? {
        EntityStops(
          storage, base, before, n, options, groups, outputs, done, e, batches, b, written, covered, rows, start,
          from, mid, issued, storage.files);
        return Err(more.error), rows, covered;
      }
      var rowsByKind := batch.RowsByKind();
      var main := MainKind(e.isEdge);
      var batchRows := if main in rowsByKind then rowsByKind[main] else 0;
      EntityNext(
        storage, base, before, n, options, groups, outputs, done, e, batches, b, written, covered, rows, start, from,
        mid, issued, more.value, batchRows, storage.files);
      written := written + more.value;
      covered := covered + batch.groups;
      rows := rows + batchRows;
    }
    EntityEnds(
      storage, before, n, options, groups, outputs, done, e, batches, written, covered, rows, start, from,
      storage.files);
    r := Ok(written);
  }

  // The batches of an entity and where its compaction stands after b of them.
  ghost predicate EntityPlanned(groups: seq<CompactionGroup>, e: EntityKey, batches: seq<CompactionBatch>) {
    && (forall b | 0 <= b < |batches| :: PlannedFor(groups, e, batches[b]))
    && (forall g :: g in Concat(batches) <==> Eligible(groups, g) && EntityOf(g) == e)
  }

  ghost predicate EntityStands(
    storage: Storage, before: map<Uri, Table>, n: nat, options: Options, groups: seq<CompactionGroup>,
    outputs: seq<CompactionOutput>, done: seq<CompactionGroup>, e: EntityKey, batches: seq<CompactionBatch>, b: nat,
    written: seq<CompactionOutput>, covered: seq<CompactionGroup>, rows: int, start: map<Uri, Table>, from: nat,
    now: map<Uri, Table>)
  {
    && b <= |batches| && covered == Concat(batches[..b])
    && EntityProgress(storage, before, n, options, outputs, done, e, written, covered, rows, now)
    && LeavesOld(storage, start, from, options, now)
    && (!options.dryRun ==> Belong(written, groups))
    && Follows(RunFate(start, options, AllJobs(batches[..b])), start, true, now)
  }

  lemma AsPlanned(groups: seq<CompactionGroup>, e: EntityKey, batches: seq<CompactionBatch>)
    requires forall b | 0 <= b < |batches| :: PlannedFor(groups, e, batches[b])
    requires forall g :: g in Concat(batches) <==> Eligible(groups, g) && EntityOf(g) == e
    ensures EntityPlanned(groups, e, batches)
  {
    hide PlannedFor, Eligible;
  }

  lemma EntityStarts(
    storage: Storage, before: map<Uri, Table>, n: nat, options: Options, groups: seq<CompactionGroup>,
    outputs: seq<CompactionOutput>, done: seq<CompactionGroup>, e: EntityKey, batches: seq<CompactionBatch>,
    start: map<Uri, Table>, from: nat)
    requires RunProgress(storage, before, n, options, outputs, done, start)
    ensures EntityStands(
      storage, before, n, options, groups, outputs, done, e, batches, 0, [], [], 0, start, from, start)
  {
    hide RunProgress, LeavesOld;
    assert outputs + [] == outputs && done + [] == done;
    Unchanged(storage, start, from, options);
  }

  lemma PlannedBatch(
    storage: Storage, base: Uri, groups: seq<CompactionGroup>, e: EntityKey, batches: seq<CompactionBatch>, b: nat,
    n: nat, issued: nat)
    requires b < |batches| && EntityPlanned(groups, e, batches) && SoundGroups(storage, base, groups, n) && n <= issued
    ensures SoundBatch(storage, base, batches[b], issued)
    ensures batches[b].groups != [] && Distinct(batches[b].fileKinds)
    ensures batches[b].entityType == e.entityType && batches[b].isEdge == e.isEdge
    ensures forall g, kind | g in batches[b].groups && kind in g.files ::
      kind in batches[b].fileKinds && storage.Old(g.files[kind].uri, n)
  {
    hide Eligible, SoundGroups, SoundBatch;
    PlannedIsSound(storage, base, groups, e, batches[b], n, issued);
  }

  lemma EntityStops(
    storage: Storage, base: Uri, before: map<Uri, Table>, n: nat, options: Options, groups: seq<CompactionGroup>,
    outputs: seq<CompactionOutput>, done: seq<CompactionGroup>, e: EntityKey, batches: seq<CompactionBatch>, b: nat,
    written: seq<CompactionOutput>, covered: seq<CompactionGroup>, rows: int, start: map<Uri, Table>, from: nat,
    mid: map<Uri, Table>, issued: nat, now: map<Uri, Table>)
    requires EntityStands(
      storage, before, n, options, groups, outputs, done, e, batches, b, written, covered, rows, start, from, mid)
    requires b < |batches| && EntityPlanned(groups, e, batches) && SoundGroups(storage, base, groups, n)
    requires n <= from <= issued && forall u | u in start :: storage.Old(u, from)
    requires LeavesOld(storage, mid, issued, options, now)
    requires Follows(RunFate(mid, options, BatchJobs(batches[b])), mid, false, now)
    ensures LeavesOld(storage, start, from, options, now)
    ensures Follows(RunFate(start, options, AllJobs(batches)), start, false, now)
  {
    hide EntityProgress, LeavesOld, Belong, RunFate, AllJobs, BatchJobs, EntityPlanned, SoundGroups, Follows;
    PlannedBatch(storage, base, groups, e, batches, b, n, from);
    LeavesOldTrans(storage, start, from, options, mid, issued, now);
    LaterOld(storage, batches[b], n, from);
    BatchFate(storage, start, from, options, batches, b, mid, issued, false, now);
  }

  lemma LaterOld(storage: Storage, batch: CompactionBatch, n: nat, m: nat)
    requires n <= m && forall g, kind | g in batch.groups && kind in g.files ::
      kind in batch.fileKinds && storage.Old(g.files[kind].uri, n)
    ensures forall g, kind | g in batch.groups && kind in g.files :: storage.Old(g.files[kind].uri, m)
  {
    forall g, kind | g in batch.groups && kind in g.files
      ensures storage.Old(g.files[kind].uri, m)
    {
      assert kind in batch.fileKinds;
    }
  }

  lemma EntityNext(
    storage: Storage, base: Uri, before: map<Uri, Table>, n: nat, options: Options, groups: seq<CompactionGroup>,
    outputs: seq<CompactionOutput>, done: seq<CompactionGroup>, e: EntityKey, batches: seq<CompactionBatch>, b: nat,
    written: seq<CompactionOutput>, covered: seq<CompactionGroup>, rows: int, start: map<Uri, Table>, from: nat,
    mid: map<Uri, Table>, issued: nat, more: seq<CompactionOutput>, batchRows: int, now: map<Uri, Table>)
    requires EntityStands(
      storage, before, n, options, groups, outputs, done, e, batches, b, written, covered, rows, start, from, mid)
    requires b < |batches| && EntityPlanned(groups, e, batches) && SoundGroups(storage, base, groups, n)
    requires n <= from <= issued && forall u | u in start :: storage.Old(u, from)
    requires forall u | u in before :: storage.Old(u, n)
    requires forall u | u in mid :: storage.Old(u, issued)
    requires LeavesOld(storage, mid, issued, options, now)
    requires KindsDone(storage, mid, issued, batches[b], batches[b].fileKinds, options, more, now)
    requires Follows(RunFate(mid, options, BatchJobs(batches[b])), mid, true, now)
    requires var main := MainKind(e.isEdge);
      batchRows == if main in batches[b].fileKinds then KindRows(batches[b].groups, main) else 0
    ensures EntityStands(
      storage, before, n, options, groups, outputs, done, e, batches, b + 1, written + more,
      covered + batches[b].groups, rows + batchRows, start, from, now)
  {
    hide EntityProgress, LeavesOld, Belong, RunFate, AllJobs, BatchJobs, EntityPlanned, SoundGroups, Follows, KindsDone;
    PlannedBatch(storage, base, groups, e, batches, b, n, from);
    LeavesOldTrans(storage, start, from, options, mid, issued, now);
    LaterOld(storage, batches[b], n, from);
    BatchFate(storage, start, from, options, batches, b, mid, issued, true, now);
    NextEntityBatch(
      storage, before, n, options, outputs, done, e, written, covered, rows, mid, issued, batches[b], more, batchRows,
      now);
    ConcatNext(batches, b);
    if !options.dryRun {
      BatchBelongs(storage, mid, issued, options, groups, e, batches, b, more, now);
      BelongAll(written, more, groups);
    }
  }

  lemma EntityEnds(
    storage: Storage, before: map<Uri, Table>, n: nat, options: Options, groups: seq<CompactionGroup>,
    outputs: seq<CompactionOutput>, done: seq<CompactionGroup>, e: EntityKey, batches: seq<CompactionBatch>,
    written: seq<CompactionOutput>, covered: seq<CompactionGroup>, rows: int, start: map<Uri, Table>, from: nat,
    now: map<Uri, Table>)
    requires EntityStands(
      storage, before, n, options, groups, outputs, done, e, batches, |batches|, written, covered, rows, start, from,
      now)
    requires EntityPlanned(groups, e, batches)
    ensures EntityProgress(storage, before, n, options, outputs, done, e, written, covered, rows, now)
    ensures forall g :: g in covered <==> Eligible(groups, g) && EntityOf(g) == e
    ensures LeavesOld(storage, start, from, options, now) && (!options.dryRun ==> Belong(written, groups))
    ensures Follows(RunFate(start, options, AllJobs(batches)), start, true, now)
  {
    hide EntityProgress, LeavesOld, Belong, RunFate, AllJobs, Follows, Eligible, PlannedFor;
    assert batches[..|batches|] == batches;
  }

  // Every output is stored where its entity and kind belong, and a group that takes part has that kind.
  ghost predicate Belong(outputs: seq<CompactionOutput>, groups: seq<CompactionGroup>) {
    Filed(outputs) && forall o | o in outputs :: exists g :: Eligible(groups, g) && OutputFor(o, g)
  }

  predicate OutputFor(o: CompactionOutput, g: CompactionGroup) {
    o.entityType == g.entityType && o.isEdge == g.isEdge && o.fileKind in g.files
  }

  lemma BelongAll(a: seq<CompactionOutput>, b: seq<CompactionOutput>, groups: seq<CompactionGroup>)
    requires Belong(a, groups) && Belong(b, groups)
    ensures Belong(a + b, groups)
  {
    hide Eligible, ParseGraphUri;
  }

  lemma BatchBelongs(
    storage: Storage, mid: map<Uri, Table>, issued: nat, options: Options, groups: seq<CompactionGroup>, e: EntityKey,
    batches: seq<CompactionBatch>, b: nat, more: seq<CompactionOutput>, now: map<Uri, Table>)
    requires b < |batches| && EntityPlanned(groups, e, batches) && !options.dryRun
    requires KindsDone(storage, mid, issued, batches[b], batches[b].fileKinds, options, more, now)
    ensures Belong(more, groups)
  {
    hide Stored, Rewrote, ParseGraphUri, Eligible;
    var batch := batches[b];
    assert PlannedFor(groups, e, batch);
    var g := batch.groups[0];
    ConcatMembers(batches);
    assert g in batch.groups && batch in batches;
    forall o | o in more
      ensures OutputFor(o, g)
    {
      var j :| 0 <= j < |more| && more[j] == o;
      assert OutputOf(batch, batch.fileKinds[j], options, more[j]) && batch.fileKinds[j] in batch.fileKinds;
    }
  }

  lemma BatchSourcesOld(storage: Storage, batch: CompactionBatch, n: nat)
    requires forall g, kind | g in batch.groups && kind in g.files :: storage.Old(g.files[kind].uri, n)
    ensures forall u | u in SourcesOf(BatchJobs(batch)) :: storage.Old(u, n)
  {
    forall u | u in SourcesOf(BatchJobs(batch))
      ensures storage.Old(u, n)
    {
      InSources(BatchJobs(batch), u);
      var j :| j in BatchJobs(batch) && u in JobSources(j);
      var i :| 0 <= i < |j.groups| && SourceUris(j.groups, j.kind)[i] == u;
      assert j.groups[i] in batch.groups;
    }
  }

  // The next batch decides how the entity goes on; if it fails, that is the end.
  lemma BatchFate(
    storage: Storage, start: map<Uri, Table>, from: nat, options: Options, batches: seq<CompactionBatch>, b: nat,
    mid: map<Uri, Table>, issued: nat, ok: bool, now: map<Uri, Table>)
    requires b < |batches| && from <= issued && forall u | u in start :: storage.Old(u, from)
    requires forall g, kind | g in batches[b].groups && kind in g.files :: storage.Old(g.files[kind].uri, from)
    requires LeavesOld(storage, start, from, options, mid) && LeavesOld(storage, mid, issued, options, now)
    requires Follows(RunFate(start, options, AllJobs(batches[..b])), start, true, mid)
    requires Follows(RunFate(mid, options, BatchJobs(batches[b])), mid, ok, now)
    ensures Follows(RunFate(start, options, AllJobs(batches[..b + 1])), start, ok, now)
    ensures !ok ==> Follows(RunFate(start, options, AllJobs(batches)), start, ok, now)
  {
    hide LeavesOld, RunFate, BatchJobs;
    BatchSourcesOld(storage, batches[b], from);
    FateGoesOn(storage, start, from, options, AllJobs(batches[..b]), mid, issued, BatchJobs(batches[b]), ok, now);
    assert batches[..b + 1][..b] == batches[..b];
    if !ok {
      BatchesFail(start, options, batches, b + 1);
    }
  }

  lemma {:induction false} BatchesFail(files: map<Uri, Table>, options: Options, batches: seq<CompactionBatch>, b: nat)
    requires b <= |batches| && !RunFate(files, options, AllJobs(batches[..b])).ok
    ensures RunFate(files, options, AllJobs(batches)) == RunFate(files, options, AllJobs(batches[..b]))
    decreases |batches|
  {
    var m := |batches| - 1;
    if b == |batches| {
      assert batches[..b] == batches;
    } else {
      assert batches[..m][..b] == batches[..b];
      BatchesFail(files, options, batches[..m], b);
      FailureIsFinal(files, options, AllJobs(batches[..m]), BatchJobs(batches[m]));
    }
  }

  datatype Report = Report(outputs: seq<CompactionOutput>, counts: map<string, int>)

  function Files(outputs: seq<CompactionOutput>): seq<ManifestFile> {
    seq(|outputs|, i requires 0 <= i < |outputs| => outputs[i].file)
  }

  // The manifests mention only paths the storage can vouch for.
  ghost predicate SoundManifests(storage: Storage, base: Uri, manifests: seq<ManifestInfo>, n: nat) {
    forall e | e in Entries(manifests) ::
      && storage.Old(e.file.uri, n)
      && match ParseGraphUri(e.file.uri) case Some(k) => PlainNames(base, k) case None => true
  }

  // Every file a manifest mentions last for an eligible run is, row by row, part of an output.
  ghost predicate AllCarried(
    before: map<Uri, Table>, entries: seq<Entry>, outputs: seq<CompactionOutput>, now: map<Uri, Table>)
  {
    forall key, kind | EligibleRun(entries, key) && LastFile(entries, key, kind).Some? ::
      Carried(before, outputs, LastFile(entries, key, kind).value.uri, now)
  }

  method RunCompaction(
    storage: Storage, base: Uri, policy: CompactionPolicy, options: Options, runId: string, completedAt: int)
    returns (r: Result<Report>)
    requires storage.Valid() && SoundManifests(storage, base, storage.manifests, storage.issued)
    modifies storage
    ensures Safe(storage)
    ensures r.Ok? ==>
      RunProgress(storage, old(storage.files), old(storage.issued), options, r.value.outputs, [], storage.files)
    ensures r.Ok? && !options.dryRun ==>
      AllCarried(old(storage.files), Entries(old(storage.manifests)), r.value.outputs, storage.files)
    ensures r.Ok? && !options.dryRun ==> forall f | f in Files(r.value.outputs) ::
      && f.uri in storage.files && f.rows == |storage.files[f.uri].rows|
      && f.bytesWritten == storage.sizeOf(storage.files[f.uri])
    ensures r.Ok? && (options.strict || options.dryRun) ==>
      Counted(r.value.outputs, r.value.counts) && CountedInFull(r.value.outputs, r.value.counts)
    ensures storage.manifests == if r.Ok? && r.value.outputs != [] && !options.dryRun
      then old(storage.manifests) + [ManifestInfo(runId, completedAt, Files(r.value.outputs))]
      else old(storage.manifests)
    ensures LeavesOld(storage, old(storage.files), old(storage.issued), options, storage.files)
    ensures Follows(
      RunFate(old(storage.files), options, PlannedJobs(policy, Entries(old(storage.manifests)))),
      old(storage.files), r.Ok?, storage.files)
    ensures TruthfulManifests(old(storage.files), Entries(old(storage.manifests))) ==> r.Ok?
    ensures r.Ok? && !options.dryRun ==> Belong(r.value.outputs, GroupsOf(Entries(old(storage.manifests))))
    ensures SoundManifests(storage, base, storage.manifests, storage.issued)
  {
    hide LeavesOld, Belong, Follows, RunFate, Eligible, AllCarried, SoundManifests, RunProgress, Counted, PlannedJobs;
    hide Grouped, SoundGroups, TruthfulManifests, CountedInFull;
    ghost var before, entries, n := storage.files, Entries(storage.manifests), storage.issued;
    if storage.manifests == [] {
      NothingToDo(storage, before, n, policy, options);
      return Ok(Report([], map[]));
    }
    var groups := GroupManifests(storage.manifests);
    GroupsAreSound(storage, base, storage.manifests, groups, storage.issued);
    SomeKind(entries, groups);
    var outcome, done := CompactEntities(storage, base, policy, options, groups);
    StillSound(storage, base, storage.manifests, n, storage.issued);
    RunIsPlanned(policy, entries);
    IfTruthful(before, options, policy, entries, outcome.Ok?, storage.files);
    if outcome.Err? {
      return Err(outcome.error);
    }
    r := outcome;
    RunEnds(storage, before, n, options, entries, groups, r.value.outputs, r.value.counts, done, storage.files);
    if r.value.outputs != [] && !options.dryRun {
      AddManifest(storage, base, groups, n, r.value.outputs, runId, completedAt);
    }
  }

  method AddManifest(
    storage: Storage, base: Uri, ghost groups: seq<CompactionGroup>, ghost n: nat, outputs: seq<CompactionOutput>,
    runId: string, completedAt: int)
    requires storage.Valid() && SoundManifests(storage, base, storage.manifests, storage.issued)
    requires SoundGroups(storage, base, groups, n) && Belong(outputs, groups)
    requires forall g | g in groups :: exists kind :: kind in g.files
    requires forall o | o in outputs :: o.file.uri in storage.files
    modifies storage`manifests
    ensures storage.manifests == old(storage.manifests) + [ManifestInfo(runId, completedAt, Files(outputs))]
    ensures storage.Valid() && SoundManifests(storage, base, storage.manifests, storage.issued)
  {
    OutputsAreSound(storage, base, groups, n, outputs);
    hide SoundManifests, SoundGroups, Belong;
    MoreManifests(storage, base, storage.manifests, ManifestInfo(runId, completedAt, Files(outputs)), storage.issued);
    storage.manifests := storage.manifests + [ManifestInfo(runId, completedAt, Files(outputs))];
  }

  lemma NothingToDo(
    storage: Storage, before: map<Uri, Table>, n: nat, policy: CompactionPolicy, options: Options)
    requires forall u | u in before :: storage.Old(u, n)
    ensures RunProgress(storage, before, n, options, [], [], before) && LeavesOld(storage, before, n, options, before)
    ensures AllCarried(before, Entries([]), [], before) && Counted([], map[]) && CountedInFull([], map[])
    ensures Follows(RunFate(before, options, PlannedJobs(policy, Entries([]))), before, true, before)
    ensures Belong([], GroupsOf(Entries([])))
  {
  }

  lemma SomeKind(entries: seq<Entry>, groups: seq<CompactionGroup>)
    requires Grouped(entries, groups)
    ensures forall g | g in groups :: exists kind :: kind in g.files
  {
  }

  lemma IfTruthful(
    before: map<Uri, Table>, options: Options, policy: CompactionPolicy, entries: seq<Entry>, ok: bool,
    now: map<Uri, Table>)
    requires Follows(RunFate(before, options, PlannedJobs(policy, entries)), before, ok, now)
    ensures TruthfulManifests(before, entries) ==> ok
  {
    hide RunFate, PlannedJobs, TruthfulManifests;
    if TruthfulManifests(before, entries) {
      TruthfulGoes(before, options, policy, entries);
    }
  }

  lemma RunIsPlanned(policy: CompactionPolicy, entries: seq<Entry>)
    ensures PlannedJobs(policy, entries) == RunJobs(policy, GroupsOf(entries), Entities(GroupsOf(entries)))
  {
  }

  lemma RunEnds(
    storage: Storage, before: map<Uri, Table>, n: nat, options: Options, entries: seq<Entry>,
    groups: seq<CompactionGroup>, outputs: seq<CompactionOutput>, counts: map<string, int>,
    done: seq<CompactionGroup>, now: map<Uri, Table>)
    requires RunProgress(storage, before, n, options, outputs, done, now) && Grouped(entries, groups)
    requires forall g | Eligible(groups, g) :: g in done
    ensures RunProgress(storage, before, n, options, outputs, [], now)
    ensures !options.dryRun ==> AllCarried(before, entries, outputs, now)
    ensures !options.dryRun ==> forall o | o in outputs :: o.file.uri in now
    ensures !options.dryRun ==> forall f | f in Files(outputs) ::
      f.uri in now && f.rows == |now[f.uri].rows| && f.bytesWritten == storage.sizeOf(now[f.uri])
    ensures Counted(outputs, counts) ==> CountedInFull(outputs, counts)
  {
    hide FilesProgress, CarriedGroup, AllCarried, Grouped, Eligible;
    EligibleRunsCarried(before, entries, groups, outputs, done, now, options.dryRun);
    InFull(outputs, counts);
    forall f | f in Files(outputs)
      ensures exists o :: o in outputs && o.file == f
    {
      var i :| 0 <= i < |outputs| && Files(outputs)[i] == f;
      assert outputs[i] in outputs;
    }
  }

  lemma StillSound(storage: Storage, base: Uri, manifests: seq<ManifestInfo>, n: nat, issued: nat)
    requires SoundManifests(storage, base, manifests, n) && n <= issued
    ensures SoundManifests(storage, base, manifests, issued)
  {
    hide ParseGraphUri, PlainNames;
  }

  // The outputs of a run can be sources of the next.
  lemma OutputsAreSound(
    storage: Storage, base: Uri, groups: seq<CompactionGroup>, n: nat, outputs: seq<CompactionOutput>)
    requires storage.Valid() && SoundGroups(storage, base, groups, n) && Belong(outputs, groups)
    requires forall g | g in groups :: exists kind :: kind in g.files
    requires forall o | o in outputs :: o.file.uri in storage.files
    ensures forall f | f in Files(outputs) ::
      storage.Old(f.uri, storage.issued) && ParseGraphUri(f.uri).Some? && PlainNames(base, ParseGraphUri(f.uri).value)
  {
    hide ParseGraphUri;
    forall f | f in Files(outputs)
      ensures storage.Old(f.uri, storage.issued)
      ensures ParseGraphUri(f.uri).Some? && PlainNames(base, ParseGraphUri(f.uri).value)
    {
      var i :| 0 <= i < |outputs| && Files(outputs)[i] == f;
      var o := outputs[i];
      assert o in outputs;
      var g :| Eligible(groups, g) && OutputFor(o, g);
      assert PlainNames(base, GraphKey(g.isEdge, g.entityType, o.fileKind));
    }
  }

  lemma MoreManifests(storage: Storage, base: Uri, manifests: seq<ManifestInfo>, m: ManifestInfo, n: nat)
    requires SoundManifests(storage, base, manifests, n)
    requires forall f | f in m.files ::
      storage.Old(f.uri, n) && ParseGraphUri(f.uri).Some? && PlainNames(base, ParseGraphUri(f.uri).value)
    ensures SoundManifests(storage, base, manifests + [m], n)
  {
    hide ParseGraphUri, PlainNames;
    assert (manifests + [m])[..|manifests|] == manifests;
    forall e | e in Tagged(m)
      ensures e.file in m.files
    {
      var i :| 0 <= i < |Tagged(m)| && Tagged(m)[i] == e;
    }
  }

  // The eligible groups of the first i entities are done, and no others.
  ghost predicate EntitiesDone(groups: seq<CompactionGroup>, keys: seq<EntityKey>, i: nat, done: seq<CompactionGroup>)
    requires i <= |keys|
  {
    forall g :: g in done <==> Eligible(groups, g) && EntityOf(g) in keys[..i]
  }

  lemma NextEntity(
    groups: seq<CompactionGroup>, keys: seq<EntityKey>, i: nat, done: seq<CompactionGroup>,
    covered: seq<CompactionGroup>)
    requires i < |keys| && EntitiesDone(groups, keys, i, done)
    requires forall g :: g in covered <==> Eligible(groups, g) && EntityOf(g) == keys[i]
    ensures EntitiesDone(groups, keys, i + 1, done + covered)
  {
    hide Eligible;
    assert keys[..i + 1] == keys[..i] + [keys[i]];
  }

  lemma AllEntitiesDone(groups: seq<CompactionGroup>, keys: seq<EntityKey>, done: seq<CompactionGroup>)
    requires EntitiesDone(groups, keys, |keys|, done) && forall g | g in groups :: EntityOf(g) in keys
    ensures forall g | Eligible(groups, g) :: g in done
  {
    assert keys[..|keys|] == keys;
  }

  method CompactEntities(
    storage: Storage, base: Uri, policy: CompactionPolicy, options: Options, groups: seq<CompactionGroup>)
    returns (r: Result<Report>, ghost done: seq<CompactionGroup>)
    requires storage.Valid() && SoundGroups(storage, base, groups, storage.issued)
    requires forall g | g in groups :: exists kind :: kind in g.files
    modifies storage`files, storage`states, storage`issued
    ensures Safe(storage)
    ensures r.Ok? ==>
      RunProgress(storage, old(storage.files), old(storage.issued), options, r.value.outputs, done, storage.files)
    ensures r.Ok? ==> forall g | Eligible(groups, g) :: g in done
    ensures r.Ok? && (options.strict || options.dryRun) ==> Counted(r.value.outputs, r.value.counts)
    ensures LeavesOld(storage, old(storage.files), old(storage.issued), options, storage.files)
    ensures Follows(
      RunFate(old(storage.files), options, RunJobs(policy, groups, Entities(groups))), old(storage.files), r.Ok?,
      storage.files)
    ensures r.Ok? && !options.dryRun ==> Belong(r.value.outputs, groups)
  {
    hide LeavesOld, Eligible, EntitiesDone, Counted, RunProgress, Belong, Follows, RunFate;
    hide RunJobs, AllJobs, EntityPlan;
    ghost var before, n, past := storage.files, storage.issued, storage.states;
    Unchanged(storage, before, n, options);
    done := [];
    var keys := Entities(groups);
    var outputs: seq<CompactionOutput> := [];
    var counts: map<string, int> := map[];
    NothingDone(storage, before, n, options, policy, groups, keys);
    for i := 0 to |keys|
      invariant storage.Valid() && n <= storage.issued && Safely(past, storage.states)
      invariant RunProgress(storage, before, n, options, outputs, done, storage.files)
      invariant EntitiesDone(groups, keys, i, done)
      invariant options.strict || options.dryRun ==> Counted(outputs, counts)
      invariant LeavesOld(storage, before, n, options, storage.files)
      invariant !options.dryRun ==> Belong(outputs, groups)
      invariant Follows(RunFate(before, options, RunJobs(policy, groups, keys[..i])), before, true, storage.files)
    {
      var e := keys[i];
      ghost var mid, issued, midStates := storage.files, storage.issued, storage.states;
      var written, rows, covered := CompactEntity(storage, base, policy, options, groups, e, before, n, outputs, done);
      SafelyTrans(past, midStates, storage.states);
      LeavesOldTrans(storage, before, n, options, mid, issued, storage.files);
      EntityFate(
        storage, base, before, n, options, policy, groups, keys, i, mid, issued, written.Ok?, storage.files);
      if written.Err? {
        return Err(written.error), done;
      }
      if !options.dryRun {
        BelongAll(outputs, written.value, groups);
      }
      if options.strict || options.dryRun {
        CountedNext(outputs, counts, written.value, e.entityType, rows);
      }
      NextEntity(groups, keys, i, done, covered);
      outputs := outputs + written.value;
      done := done + covered;
      counts := AddCount(counts, e.entityType, rows);
    }
    AllEntitiesDone(groups, keys, done);
    assert keys[..|keys|] == keys;
    r := Ok(Report(outputs, counts));
  }

  lemma NothingDone(
    storage: Storage, before: map<Uri, Table>, n: nat, options: Options, policy: CompactionPolicy,
    groups: seq<CompactionGroup>, keys: seq<EntityKey>)
    requires forall u | u in before :: storage.Old(u, n)
    ensures RunProgress(storage, before, n, options, [], [], before)
    ensures EntitiesDone(groups, keys, 0, []) && Counted([], map[])
    ensures Follows(RunFate(before, options, RunJobs(policy, groups, [])), before, true, before) && Belong([], groups)
  {
  }

  lemma EntitySourcesOld(
    storage: Storage, base: Uri, policy: CompactionPolicy, groups: seq<CompactionGroup>, e: EntityKey, n: nat)
    requires SoundGroups(storage, base, groups, n) && forall g | g in groups :: exists kind :: kind in g.files
    ensures forall u | u in SourcesOf(AllJobs(EntityPlan(policy, groups, e))) :: storage.Old(u, n)
  {
    EntityPlanShape(policy, groups, e);
    var batches := EntityPlan(policy, groups, e);
    forall b | 0 <= b < |batches|
      ensures forall u | u in SourcesOf(BatchJobs(batches[b])) :: storage.Old(u, n)
    {
      PlannedIsSound(storage, base, groups, e, batches[b], n, n);
      BatchSourcesOld(storage, batches[b], n);
    }
    AllSourcesOld(storage, batches, n);
  }

  lemma {:induction false} AllSourcesOld(storage: Storage, batches: seq<CompactionBatch>, n: nat)
    requires forall b, u | 0 <= b < |batches| && u in SourcesOf(BatchJobs(batches[b])) :: storage.Old(u, n)
    ensures forall u | u in SourcesOf(AllJobs(batches)) :: storage.Old(u, n)
  {
    if batches != [] {
      var m := |batches| - 1;
      AllSourcesOld(storage, batches[..m], n);
      SourcesAppend(AllJobs(batches[..m]), BatchJobs(batches[m]));
    }
  }

  lemma EntityFate(
    storage: Storage, base: Uri, start: map<Uri, Table>, from: nat, options: Options, policy: CompactionPolicy,
    groups: seq<CompactionGroup>, keys: seq<EntityKey>, i: nat, mid: map<Uri, Table>, issued: nat, ok: bool,
    now: map<Uri, Table>)
    requires i < |keys| && from <= issued && forall u | u in start :: storage.Old(u, from)
    requires SoundGroups(storage, base, groups, from) && forall g | g in groups :: exists kind :: kind in g.files
    requires LeavesOld(storage, start, from, options, mid) && LeavesOld(storage, mid, issued, options, now)
    requires Follows(RunFate(start, options, RunJobs(policy, groups, keys[..i])), start, true, mid)
    requires Follows(RunFate(mid, options, AllJobs(EntityPlan(policy, groups, keys[i]))), mid, ok, now)
    ensures Follows(RunFate(start, options, RunJobs(policy, groups, keys[..i + 1])), start, ok, now)
    ensures !ok ==> Follows(RunFate(start, options, RunJobs(policy, groups, keys)), start, ok, now)
  {
    hide LeavesOld, RunFate, AllJobs, EntityPlan, SoundGroups;
    EntitySourcesOld(storage, base, policy, groups, keys[i], from);
    FateGoesOn(
      storage, start, from, options, RunJobs(policy, groups, keys[..i]), mid, issued,
      AllJobs(EntityPlan(policy, groups, keys[i])), ok, now);
    assert keys[..i + 1][..i] == keys[..i];
    if !ok {
      EntitiesFail(start, options, policy, groups, keys, i + 1);
    }
  }

  lemma {:induction false} EntitiesFail(
    files: map<Uri, Table>, options: Options, policy: CompactionPolicy, groups: seq<CompactionGroup>,
    keys: seq<EntityKey>, i: nat)
    requires i <= |keys| && !RunFate(files, options, RunJobs(policy, groups, keys[..i])).ok
    ensures RunFate(files, options, RunJobs(policy, groups, keys)) ==
      RunFate(files, options, RunJobs(policy, groups, keys[..i]))
    decreases |keys|
  {
    hide AllJobs, EntityPlan, RunFate;
    var m := |keys| - 1;
    if i == |keys| {
      assert keys[..i] == keys;
    } else {
      assert keys[..m][..i] == keys[..i];
      EntitiesFail(files, options, policy, groups, keys[..m], i);
      FailureIsFinal(
        files, options, RunJobs(policy, groups, keys[..m]), AllJobs(EntityPlan(policy, groups, keys[m])));
    }
  }

  // counts[entityType] += rows
  function AddCount(counts: map<string, int>, entityType: string, rows: int): map<string, int> {
    counts[entityType := rows + if entityType in counts then counts[entityType] else 0]
  }

  // The rows of an output count for its type if there is one of them per vertex or edge.
  function Counting(outputs: seq<CompactionOutput>, entityType: string): seq<int> {
    seq(|outputs|, i requires 0 <= i < |outputs| =>
      var o := outputs[i];
      if o.entityType == entityType && o.fileKind == (if o.isEdge then "adj_list" else "core") then o.file.rows else 0)
  }

  ghost predicate CountedInFull(outputs: seq<CompactionOutput>, counts: map<string, int>) {
    forall t :: Sum(Counting(outputs, t)) == if t in counts then counts[t] else 0
  }

  lemma {:induction false} MainRowsIsSum(outputs: seq<CompactionOutput>, entityType: string)
    ensures MainRows(outputs, entityType) == Sum(Counting(outputs, entityType))
  {
    if outputs != [] {
      var m := |outputs| - 1;
      MainRowsIsSum(outputs[..m], entityType);
      assert Counting(outputs, entityType)[..m] == Counting(outputs[..m], entityType);
    }
  }

  lemma InFull(outputs: seq<CompactionOutput>, counts: map<string, int>)
    ensures Counted(outputs, counts) ==> CountedInFull(outputs, counts)
  {
    forall t
      ensures MainRows(outputs, t) == Sum(Counting(outputs, t))
    {
      MainRowsIsSum(outputs, t);
    }
  }

  // The counts of the report are the rows that were written.
  ghost predicate Counted(outputs: seq<CompactionOutput>, counts: map<string, int>) {
    forall t :: MainRows(outputs, t) == if t in counts then counts[t] else 0
  }

  lemma CountedNext(
    outputs: seq<CompactionOutput>, counts: map<string, int>, more: seq<CompactionOutput>, entityType: string,
    rows: int)
    requires Counted(outputs, counts) && OnlyRows(more, entityType, rows)
    ensures Counted(outputs + more, AddCount(counts, entityType, rows))
  {
    var counts' := AddCount(counts, entityType, rows);
    forall t
      ensures MainRows(outputs + more, t) == if t in counts' then counts'[t] else 0
    {
      MainRowsAppend(outputs, more, t);
      assert MainRows(outputs, t) == if t in counts then counts[t] else 0;
      assert MainRows(more, t) == if t == entityType then rows else 0;
    }
  }

  lemma GroupsAreSound(
    storage: Storage, base: Uri, manifests: seq<ManifestInfo>, groups: seq<CompactionGroup>, n: nat)
    requires SoundManifests(storage, base, manifests, n) && Grouped(Entries(manifests), groups)
    ensures SoundGroups(storage, base, groups, n)
  {
    forall g, kind | g in groups && kind in g.files
      ensures ParseGraphUri(g.files[kind].uri) == Some(GraphKey(g.isEdge, g.entityType, kind))
      ensures PlainNames(base, GraphKey(g.isEdge, g.entityType, kind)) && storage.Old(g.files[kind].uri, n)
    {
      assert GroupFile(g, kind) == LastFile(Entries(manifests), KeyOf(g), kind);
      LastFileMentioned(Entries(manifests), KeyOf(g), kind);
    }
  }

  lemma EligibleRunsCarried(
    before: map<Uri, Table>, entries: seq<Entry>, groups: seq<CompactionGroup>, outputs: seq<CompactionOutput>,
    done: seq<CompactionGroup>, now: map<Uri, Table>, dryRun: bool)
    requires Grouped(entries, groups)
    requires forall g | Eligible(groups, g) :: g in done
    requires !dryRun ==> forall g | g in done :: CarriedGroup(before, outputs, g, now)
    ensures !dryRun ==> AllCarried(before, entries, outputs, now)
  {
    forall key, kind | !dryRun && EligibleRun(entries, key) && LastFile(entries, key, kind).Some?
      ensures Carried(before, outputs, LastFile(entries, key, kind).value.uri, now)
    {
      var _ := RunIsEligible(entries, groups, key, kind);
    }
  }
}
