// A run of the audit-log compactor (retikon_core/audit/compactor.py): its plan is carried out batch by
// batch, and a batch that fails does not stop the others.

module AuditRun {
  import opened AuditCompactor
  import opened BatchCompaction
  import opened CompactionFate
  import opened CompactionTypes
  import opened Greedy
  import opened GraphStorage
  import opened Optionals
  import opened Sequences
  import opened StableSort
  import opened Tables

  const AUDIT_LOG := GraphKey(false, "AuditLog", "core")

  datatype AuditReport = AuditReport(outputs: seq<ManifestFile>, errors: nat)

  // A batch: what it wrote, and whether deleting its sources failed half-way.
  datatype Attempt = Attempt(output: ManifestFile, failed: bool)

  function Uris(files: seq<AuditFile>): seq<Uri> {
    seq(|files|, i requires 0 <= i < |files| => files[i].uri)
  }

  // The rows of a batch, from the files themselves.
  method CountRows(storage: Storage, uris: seq<Uri>) returns (rows: Option<nat>)
    ensures rows.Some? <==> AllStored(storage.files, uris)
    ensures rows.Some? ==> rows.value == |Concatenated(Loaded(storage.files, uris)).rows|
    ensures rows.Some? ==> rows.value == Total(Lengths(Loaded(storage.files, uris)))
  {
    var sum := 0;
    for i := 0 to |uris|
      invariant AllStored(storage.files, uris[..i])
      invariant sum == Total(Lengths(Loaded(storage.files, uris[..i])))
    {
      assert uris[..i + 1] == uris[..i] + [uris[i]];
      if uris[i] !in storage.files {
        assert uris[i] in uris;
        return None;
      }
      LengthsNext(storage.files, uris, i);
      sum := sum + |storage.files[uris[i]].rows|;
    }
    assert uris[..|uris|] == uris;
    AlignedRowsLength(Loaded(storage.files, uris), UnifySchema(Loaded(storage.files, uris)));
    rows := Some(sum);
  }

  lemma LengthsNext(files: map<Uri, Table>, uris: seq<Uri>, i: nat)
    requires i < |uris| && AllStored(files, uris[..i]) && uris[i] in files
    ensures AllStored(files, uris[..i + 1])
    ensures Total(Lengths(Loaded(files, uris[..i + 1]))) ==
      Total(Lengths(Loaded(files, uris[..i]))) + |files[uris[i]].rows|
  {
    assert uris[..i + 1] == uris[..i] + [uris[i]];
    var now := Lengths(Loaded(files, uris[..i + 1]));
    assert now[..i] == Lengths(Loaded(files, uris[..i]));
  }

  // One batch. None says that the rows of a source could not be counted, which ends the whole run. Once they
  // are counted the file is written, with that many rows, and counts as an output whatever happens to the
  // sources; they go one by one, up to the first that is listed twice.
  method CompactAuditBatch(storage: Storage, base: Uri, batch: seq<AuditFile>, options: Options)
    returns (r: Option<Attempt>)
    requires storage.Valid() && PlainNames(base, AUDIT_LOG)
    requires forall u | u in Uris(batch) :: ParseGraphUri(u) == Some(AUDIT_LOG) && storage.Old(u, storage.issued)
    modifies storage`files, storage`states, storage`issued
    ensures Safe(storage)
    ensures r.Some? <==> AllStored(old(storage.files), Uris(batch))
    ensures options.dryRun || r.None? ==> storage.files == old(storage.files)
    ensures r.Some? ==>
      && (r.value.failed <==> Deletes(options) && !Distinct(Uris(batch)))
      && r.value.output.rows == |Concatenated(Loaded(old(storage.files), Uris(batch))).rows|
      && r.value.output.rows == Total(Lengths(Loaded(old(storage.files), Uris(batch))))
    ensures r.Some? && options.dryRun ==> r.value.output.bytesWritten == Sum(Sizes(batch))
    ensures r.Some? && !options.dryRun ==>
      && DescribesFile(storage, r.value.output, storage.files)
      && WrittenBatch(old(storage.files), Uris(batch), r.value.output.uri, options.deleteSource, storage.files)
      && !storage.Old(r.value.output.uri, old(storage.issued))
      && ParseGraphUri(r.value.output.uri) == Some(AUDIT_LOG)
  {
    hide ParseGraphUri, Concatenated, PlainNames, Preserved, StoredRows, Fresh;
    var uris := Uris(batch);
    var rows := CountRows(storage, uris);
    if rows.None? {
      return None;
    }
    if options.dryRun {
      var dest := storage.NewPart(base, AUDIT_LOG);
      SizeInIsSum(batch, 0, |batch|);
      assert batch[0..|batch|] == batch;
      return Some(Attempt(ManifestFile(dest, rows.value, SizeIn(batch, 0, |batch|)), false));
    }
    var out, dest := WriteSources(storage, base, uris, AUDIT_LOG);
    assert |out.value.rows| == rows.value;
    var missing: Option<Uri> := None;
    if options.deleteSource {
      missing := RemoveSources(storage, uris, old(storage.files), dest, AUDIT_LOG);
    }
    r := Some(Attempt(ManifestFile(dest, rows.value, storage.sizeOf(out.value)), missing.Some?));
  }

  ghost predicate WrittenBatch(
    before: map<Uri, Table>, uris: seq<Uri>, dest: Uri, deleteSource: bool, now: map<Uri, Table>)
    requires AllStored(before, uris)
  {
    && dest !in before && dest !in uris
    && var gone := if deleteSource then Paths(uris[..Fresh(uris)]) else {};
      now == before[dest := Concatenated(Loaded(before, uris))] - gone
  }

  lemma WrittenIsRewritten(
    before: map<Uri, Table>, uris: seq<Uri>, output: ManifestFile, deleteSource: bool, now: map<Uri, Table>)
    requires AllStored(before, uris) && WrittenBatch(before, uris, output.uri, deleteSource, now)
    requires output.rows == |Concatenated(Loaded(before, uris)).rows| && (deleteSource ==> Distinct(uris))
    ensures Rewritten(before, uris, output, deleteSource, now)
  {
    hide Concatenated;
    FreshAll(uris);
  }

  // The planned batches as runs of the sorted files: what lies behind the end of one belongs to later ones.
  lemma {:induction false} RunsInOrder(policy: AuditPolicy, ordered: seq<AuditFile>, runs: seq<Run>, i: nat)
    requires WellChosen(policy, ordered, runs, i)
    ensures forall a | 0 <= a < |runs| :: i <= runs[a].from < runs[a].to <= |ordered|
    ensures forall a, b | 0 <= a < b < |runs| :: runs[a].to <= runs[b].from
    decreases |runs|
  {
    if runs != [] {
      RunsInOrder(policy, ordered, runs[1..], runs[0].to);
      assert runs == [runs[0]] + runs[1..];
    }
  }

  lemma {:induction false} PartAt(files: seq<AuditFile>, runs: seq<Run>, k: nat)
    requires k < |runs|
    ensures Parts(files, runs)[k] == Slice(files, runs[k].from, runs[k].to)
    decreases |runs|
  {
    if k > 0 {
      PartAt(files, runs[1..], k - 1);
    }
  }

  // Where a run stands that has had no failure: what lies behind the last batch is still to come, exactly
  // the sources so far are gone, if that was asked for, and every entity and kind has the rows it had.
  ghost predicate AuditProgress(
    before: map<Uri, Table>, ordered: seq<AuditFile>, end: nat, removed: seq<Uri>, options: Options,
    now: map<Uri, Table>)
  {
    && (forall i | end <= i < |ordered| :: ordered[i].uri in now)
    && (options.dryRun ==> now == before)
    && (Deletes(options) ==> SameRows(before, now))
    && (forall u | u in before :: u in now <==> !(Deletes(options) && u in removed))
    && (forall u | u in before && u in now :: now[u] == before[u])
  }

  // What a batch does to the files: one is new, and the sources are gone if that was asked for.
  ghost predicate Changes(mid: map<Uri, Table>, uris: seq<Uri>, dest: Uri, deleted: bool, now: map<Uri, Table>) {
    && dest !in mid && dest !in uris
    && (forall u :: u in now <==> (u == dest || u in mid) && !(deleted && u in uris))
    && (forall u | u in now && u != dest :: now[u] == mid[u])
  }

  lemma RewrittenChanges(
    mid: map<Uri, Table>, uris: seq<Uri>, written: ManifestFile, deleted: bool, now: map<Uri, Table>)
    requires Rewritten(mid, uris, written, deleted, now)
    ensures Changes(mid, uris, written.uri, deleted, now)
    ensures now[written.uri] == Concatenated(Loaded(mid, uris)) && written.rows == |now[written.uri].rows|
  {
    hide Concatenated;
  }

  lemma AuditFilesNext(
    before: map<Uri, Table>, ordered: seq<AuditFile>, end: nat, removed: seq<Uri>, options: Options,
    mid: map<Uri, Table>, r: Run, dest: Uri, now: map<Uri, Table>)
    requires AuditProgress(before, ordered, end, removed, options, mid)
    requires end <= r.from < r.to <= |ordered| && Distinct(Uris(ordered))
    requires !options.dryRun && dest !in before
    requires Changes(mid, Uris(ordered[r.from..r.to]), dest, options.deleteSource, now)
    requires Deletes(options) ==> SameRows(before, now)
    ensures AuditProgress(before, ordered, r.to, removed + Uris(ordered[r.from..r.to]), options, now)
  {
    hide SameRows;
    forall i | r.to <= i < |ordered|
      ensures ordered[i].uri in now
    {
      LaterIsNot(ordered, r, i);
    }
  }

  lemma AuditNext(
    before: map<Uri, Table>, ordered: seq<AuditFile>, end: nat, removed: seq<Uri>, options: Options,
    mid: map<Uri, Table>, r: Run, written: ManifestFile, now: map<Uri, Table>)
    requires AuditProgress(before, ordered, end, removed, options, mid)
    requires end <= r.from < r.to <= |ordered| && Distinct(Uris(ordered))
    requires forall u | u in Uris(ordered[r.from..r.to]) :: ParseGraphUri(u) == Some(AUDIT_LOG)
    requires if options.dryRun then now == mid else
      && Rewritten(mid, Uris(ordered[r.from..r.to]), written, options.deleteSource, now)
      && written.uri !in before && ParseGraphUri(written.uri) == Some(AUDIT_LOG)
    ensures AuditProgress(before, ordered, r.to, removed + Uris(ordered[r.from..r.to]), options, now)
  {
    var uris := Uris(ordered[r.from..r.to]);
    if !options.dryRun {
      hide Rewritten, SameRows, Changes, Uris;
      RewrittenChanges(mid, uris, written, options.deleteSource, now);
      if Deletes(options) {
        NextRows(before, uris, AUDIT_LOG, mid, written, now);
      }
      AuditFilesNext(before, ordered, end, removed, options, mid, r, written.uri, now);
    }
  }

  // An output holds the rows of all files of its batch, in order.
  ghost predicate Holds(before: map<Uri, Table>, batch: seq<AuditFile>, output: ManifestFile, now: map<Uri, Table>) {
    && AllStored(before, Uris(batch)) && output.uri in now
    && now[output.uri] == Concatenated(Loaded(before, Uris(batch)))
    && output.rows == |now[output.uri].rows|
  }

  // One output per batch, under names handed out after the first n.
  ghost predicate OutputsHold(
    storage: Storage, before: map<Uri, Table>, n: nat, batches: seq<seq<AuditFile>>, outputs: seq<ManifestFile>,
    now: map<Uri, Table>)
  {
    && |outputs| == |batches|
    && forall b | 0 <= b < |batches| ::
      && Holds(before, batches[b], outputs[b], now) && !storage.Old(outputs[b].uri, n)
      && DescribesFile(storage, outputs[b], now)
  }

  // On a dry run the outputs only tell what would be written.
  ghost predicate OutputsTold(before: map<Uri, Table>, batches: seq<seq<AuditFile>>, outputs: seq<ManifestFile>) {
    && |outputs| == |batches|
    && forall b | 0 <= b < |batches| ::
      && AllStored(before, Uris(batches[b]))
      && outputs[b].rows == Total(Lengths(Loaded(before, Uris(batches[b]))))
      && outputs[b].bytesWritten == Sum(Sizes(batches[b]))
  }

  lemma OutputsNext(
    storage: Storage, before: map<Uri, Table>, n: nat, batches: seq<seq<AuditFile>>, outputs: seq<ManifestFile>,
    mid: map<Uri, Table>, batch: seq<AuditFile>, output: ManifestFile, deleted: bool, now: map<Uri, Table>)
    requires OutputsHold(storage, before, n, batches, outputs, mid)
    requires forall u | u in Uris(batch) :: storage.Old(u, n) && u in before && u in mid && mid[u] == before[u]
    requires Rewritten(mid, Uris(batch), output, deleted, now) && !storage.Old(output.uri, n)
    requires DescribesFile(storage, output, now)
    ensures OutputsHold(storage, before, n, batches + [batch], outputs + [output], now)
  {
    hide Rewritten, Uris, Concatenated;
    RewrittenChanges(mid, Uris(batch), output, deleted, now);
    assert Loaded(mid, Uris(batch)) == Loaded(before, Uris(batch));
    forall b | 0 <= b < |batches|
      ensures Holds(before, batches[b], outputs[b], now) && DescribesFile(storage, outputs[b], now)
    {
      assert Holds(before, batches[b], outputs[b], mid);
    }
  }

  lemma LaterIsNot(ordered: seq<AuditFile>, r: Run, i: nat)
    requires r.from < r.to <= i < |ordered| && Distinct(Uris(ordered))
    ensures ordered[i].uri !in Uris(ordered[r.from..r.to])
  {
    var uris := Uris(ordered[r.from..r.to]);
    forall k | 0 <= k < |uris|
      ensures uris[k] != ordered[i].uri
    {
      assert Uris(ordered)[r.from + k] == uris[k] && Uris(ordered)[i] == ordered[i].uri;
    }
  }

  lemma SliceDistinct(ordered: seq<AuditFile>, r: Run)
    requires r.from <= r.to <= |ordered| && Distinct(Uris(ordered))
    ensures Distinct(Uris(ordered[r.from..r.to]))
  {
    var uris := Uris(ordered[r.from..r.to]);
    forall i, j | 0 <= i < j < |uris|
      ensures uris[i] != uris[j]
    {
      assert Uris(ordered)[r.from + i] == uris[i] && Uris(ordered)[r.from + j] == uris[j];
    }
  }

  // Sorting keeps the files, and their paths distinct.
  lemma SortedFiles(files: seq<AuditFile>)
    requires Distinct(Uris(files))
    ensures Distinct(Uris(Sort(NoLater, files)))
  {
    var ordered := Sort(NoLater, files);
    SameMembers(ordered, files);
    forall i, j | 0 <= i < j < |files|
      ensures files[i] != files[j]
    {
      assert Uris(files)[i] != Uris(files)[j];
    }
    DistinctReordered(ordered, files);
    forall i, j | 0 <= i < j < |ordered|
      ensures Uris(ordered)[i] != Uris(ordered)[j]
    {
      assert ordered[i] in files && ordered[j] in files;
      var a :| 0 <= a < |files| && files[a] == ordered[i];
      var b :| 0 <= b < |files| && files[b] == ordered[j];
      assert Uris(files)[a] == ordered[i].uri && Uris(files)[b] == ordered[j].uri;
    }
  }

  // All files of some batches.
  function Planned(batches: seq<seq<AuditFile>>): seq<Uri> {
    if batches == [] then [] else Planned(batches[..|batches| - 1]) + Uris(batches[|batches| - 1])
  }

  // The files are stored, each listed once.
  ghost predicate Listed(files: map<Uri, Table>, listing: seq<AuditFile>) {
    AllStored(files, Uris(listing)) && Distinct(Uris(listing))
  }

  // Where a run that has had no failure stands, with its outputs.
  ghost predicate AuditStands(
    storage: Storage, before: map<Uri, Table>, n: nat, ordered: seq<AuditFile>, end: nat,
    batches: seq<seq<AuditFile>>, outputs: seq<ManifestFile>, options: Options, now: map<Uri, Table>)
  {
    && |outputs| == |batches|
    && AuditProgress(before, ordered, end, Planned(batches), options, now)
    && (if options.dryRun then OutputsTold(before, batches, outputs)
        else OutputsHold(storage, before, n, batches, outputs, now))
  }

  lemma SourceOf(ordered: seq<AuditFile>, run: Run, batch: seq<AuditFile>, u: Uri) returns (k: nat)
    requires run.from < run.to <= |ordered| && batch == ordered[run.from..run.to] && u in Uris(batch)
    ensures run.from <= k < run.to && ordered[k] in ordered && ordered[k].uri == u && u in Uris(ordered)
  {
    var j :| 0 <= j < |batch| && Uris(batch)[j] == u;
    k := run.from + j;
    assert Uris(ordered)[k] == u;
  }

  // The files of a batch are old audit logs, and as they were before the run.
  lemma BatchSources(
    storage: Storage, before: map<Uri, Table>, n: nat, ordered: seq<AuditFile>, run: Run, batch: seq<AuditFile>,
    good: bool, files: map<Uri, Table>)
    requires n <= storage.issued && run.from < run.to <= |ordered| && batch == ordered[run.from..run.to]
    requires forall f | f in ordered :: ParseGraphUri(f.uri) == Some(AUDIT_LOG) && storage.Old(f.uri, n)
    requires good ==>
      && AllStored(before, Uris(ordered))
      && (forall k | run.from <= k < run.to :: ordered[k].uri in files)
      && (forall u | u in before && u in files :: files[u] == before[u])
    ensures forall u | u in Uris(batch) ::
      && ParseGraphUri(u) == Some(AUDIT_LOG) && storage.Old(u, n) && storage.Old(u, storage.issued)
      && (good ==> u in before && u in files && files[u] == before[u])
  {
    forall u | u in Uris(batch)
      ensures ParseGraphUri(u) == Some(AUDIT_LOG) && storage.Old(u, n) && storage.Old(u, storage.issued)
      ensures good ==> u in before && u in files && files[u] == before[u]
    {
      var _ := SourceOf(ordered, run, batch, u);
    }
  }

  // The next batch of a run; good says that there has been no failure so far.
  method NextAuditBatch(
    storage: Storage, base: Uri, batch: seq<AuditFile>, options: Options, ghost before: map<Uri, Table>,
    ghost n: nat, ghost ordered: seq<AuditFile>, ghost end: nat, ghost batches: seq<seq<AuditFile>>,
    ghost outputs: seq<ManifestFile>, ghost run: Run, ghost good: bool)
    returns (r: Option<Attempt>)
    requires storage.Valid() && PlainNames(base, AUDIT_LOG) && n <= storage.issued
    requires forall f | f in ordered :: ParseGraphUri(f.uri) == Some(AUDIT_LOG) && storage.Old(f.uri, n)
    requires forall u | u in before :: storage.Old(u, n)
    requires end <= run.from < run.to <= |ordered| && batch == ordered[run.from..run.to]
    requires good ==>
      Listed(before, ordered) && AuditStands(storage, before, n, ordered, end, batches, outputs, options, storage.files)
    modifies storage`files, storage`states, storage`issued
    ensures Safe(storage)
    ensures good ==>
      && r.Some? && !r.value.failed
      && AuditStands(
           storage, before, n, ordered, run.to, batches + [batch], outputs + [r.value.output], options, storage.files)
  {
    ghost var mid := storage.files;
    BatchSources(storage, before, n, ordered, run, batch, good, mid);
    if good {
      SliceDistinct(ordered, run);
    }
    r := CompactAuditBatch(storage, base, batch, options);
    if good {
      if !options.dryRun {
        WrittenIsRewritten(mid, Uris(batch), r.value.output, options.deleteSource, storage.files);
      }
      AuditNext(before, ordered, end, Planned(batches), options, mid, run, r.value.output, storage.files);
      PlannedNext(batches, batch);
      if options.dryRun {
        assert Loaded(mid, Uris(batch)) == Loaded(before, Uris(batch));
      } else {
        OutputsNext(
          storage, before, n, batches, outputs, mid, batch, r.value.output, options.deleteSource, storage.files);
      }
    }
  }

  lemma PlannedNext(batches: seq<seq<AuditFile>>, batch: seq<AuditFile>)
    ensures Planned(batches + [batch]) == Planned(batches) + Uris(batch)
  {
    assert (batches + [batch])[..|batches|] == batches;
  }

  // The batches are the given runs of the sorted files, one behind the other.
  ghost predicate InOrder(ordered: seq<AuditFile>, runs: seq<Run>, batches: seq<seq<AuditFile>>) {
    && |batches| == |runs|
    && (forall b | 0 <= b < |runs| ::
          runs[b].from < runs[b].to <= |ordered| && batches[b] == ordered[runs[b].from..runs[b].to])
    && (forall a, b | 0 <= a < b < |runs| :: runs[a].to <= runs[b].from)
  }

  lemma PlanInOrder(policy: AuditPolicy, files: seq<AuditFile>) returns (runs: seq<Run>)
    ensures InOrder(Sort(NoLater, files), runs, AuditPlan(policy, files))
  {
    var ordered;
    ordered, runs := AuditPlanShape(policy, files);
    RunsInOrder(policy, Sort(NoLater, files), runs, 0);
    forall b | 0 <= b < |runs|
      ensures AuditPlan(policy, files)[b] == Sort(NoLater, files)[runs[b].from..runs[b].to]
    {
      PartAt(Sort(NoLater, files), runs, b);
    }
  }

  lemma AuditStart(storage: Storage, before: map<Uri, Table>, n: nat, ordered: seq<AuditFile>, options: Options)
    requires Listed(before, ordered)
    ensures AuditStands(storage, before, n, ordered, 0, [], [], options, before)
  {
    forall i | 0 <= i < |ordered|
      ensures ordered[i].uri in before
    {
      assert Uris(ordered)[i] in Uris(ordered);
    }
  }

  lemma AuditEnds(
    storage: Storage, before: map<Uri, Table>, n: nat, ordered: seq<AuditFile>, end: nat,
    batches: seq<seq<AuditFile>>, outputs: seq<ManifestFile>, options: Options, now: map<Uri, Table>)
    requires AuditStands(storage, before, n, ordered, end, batches, outputs, options, now)
    ensures AuditStands(storage, before, n, [], 0, batches, outputs, options, now)
  {
    hide OutputsHold, OutputsTold, SameRows;
  }

  // A run in which nothing failed: one output per planned batch with the batch's rows, exactly the planned
  // sources are gone, if that was asked for, and then every entity and kind has the rows it had.
  ghost predicate CarriedOut(
    storage: Storage, before: map<Uri, Table>, n: nat, batches: seq<seq<AuditFile>>, options: Options,
    r: Option<AuditReport>, now: map<Uri, Table>)
  {
    && r.Some? && r.value.errors == 0
    && AuditStands(storage, before, n, [], 0, batches, r.value.outputs, options, now)
  }

  method CarryOut(
    storage: Storage, base: Uri, batches: seq<seq<AuditFile>>, options: Options, ghost ordered: seq<AuditFile>,
    ghost runs: seq<Run>)
    returns (r: Option<AuditReport>)
    requires storage.Valid() && PlainNames(base, AUDIT_LOG) && InOrder(ordered, runs, batches)
    requires forall f | f in ordered :: ParseGraphUri(f.uri) == Some(AUDIT_LOG) && storage.Old(f.uri, storage.issued)
    modifies storage`files, storage`states, storage`issued
    ensures Safe(storage)
    ensures r.Some? ==> |r.value.outputs| == |batches|
    ensures Listed(old(storage.files), ordered) ==>
      CarriedOut(storage, old(storage.files), old(storage.issued), batches, options, r, storage.files)
  {
    hide AuditStands, PlainNames, Listed;
    var outputs: seq<ManifestFile>, errors := [], 0;
    ghost var before, n, past := storage.files, storage.issued, storage.states;
    ghost var end: nat, good := 0, Listed(before, ordered);
    if good {
      AuditStart(storage, before, n, ordered, options);
    }
    for b := 0 to |batches|
      invariant storage.Valid() && n <= storage.issued && Safely(past, storage.states)
      invariant |outputs| == b
      invariant end == if b == 0 then 0 else runs[b - 1].to
      invariant good ==>
        errors == 0 && AuditStands(storage, before, n, ordered, end, batches[..b], outputs, options, storage.files)
    {
      assert batches[..b + 1] == batches[..b] + [batches[b]];
      ghost var midStates := storage.states;
      var result := NextAuditBatch(
        storage, base, batches[b], options, before, n, ordered, end, batches[..b], outputs, runs[b], good);
      SafelyTrans(past, midStates, storage.states);
      if result.None? {
        return None;
      }
      outputs := outputs + [result.value.output];
      if result.value.failed {
        errors := errors + 1;
      }
      end := runs[b].to;
    }
    assert batches[..|batches|] == batches;
    if good {
      AuditEnds(storage, before, n, ordered, end, batches, outputs, options, storage.files);
    }
    r := Some(AuditReport(outputs, errors));
  }

  method CompactAuditLogs(storage: Storage, base: Uri, files: seq<AuditFile>, policy: AuditPolicy, options: Options)
    returns (r: Option<AuditReport>)
    requires storage.Valid() && PlainNames(base, AUDIT_LOG)
    requires forall f | f in files :: ParseGraphUri(f.uri) == Some(AUDIT_LOG) && storage.Old(f.uri, storage.issued)
    modifies storage`files, storage`states, storage`issued
    ensures Safe(storage)
    ensures r.Some? ==> |r.value.outputs| == |AuditPlan(policy, files)|
    ensures Listed(old(storage.files), files) ==>
      CarriedOut(storage, old(storage.files), old(storage.issued), AuditPlan(policy, files), options, r, storage.files)
  {
    var batches := PlanBatches(files, policy);
    ghost var runs := PlanInOrder(policy, files);
    ghost var ordered := Sort(NoLater, files);
    SameMembers(ordered, files);
    if Listed(storage.files, files) {
      SortedFiles(files);
      ListedInOrder(storage.files, files, ordered);
    }
    r := CarryOut(storage, base, batches, options, ordered, runs);
  }

  lemma ListedInOrder(before: map<Uri, Table>, files: seq<AuditFile>, ordered: seq<AuditFile>)
    requires Listed(before, files) && forall f :: f in ordered <==> f in files
    ensures forall i | 0 <= i < |ordered| :: ordered[i].uri in before
  {
    forall i | 0 <= i < |ordered|
      ensures ordered[i].uri in before
    {
      assert ordered[i] in files;
      var k :| 0 <= k < |files| && files[k] == ordered[i];
      assert Uris(files)[k] == ordered[i].uri;
    }
  }
}
