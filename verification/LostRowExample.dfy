// Rows that are lost: a strict compaction run that deletes its sources does a first batch, fails in the second
// and is followed by a collection that, alone, would have deleted nothing.

module LostRowExample {
  import opened CompactThenCollect
  import opened CompactionFate
  import opened CompactionPlanning
  import opened CompactionPolicies
  import opened CompactionRunner
  import opened BatchCompaction
  import opened CompactionTypes
  import opened GraphGc
  import opened GraphStorage
  import opened Greedy
  import opened Optionals
  import opened Sequences
  import opened StableSort
  import opened Tables

  // Part names: one, two, three strokes and so on.
  function Strokes(n: nat): string {
    seq(n, _ => 'x')
  }

  lemma StrokesDiffer(m: nat, n: nat)
    requires Strokes(m) == Strokes(n)
    ensures m == n
  {
    assert |Strokes(m)| == m && |Strokes(n)| == n;
  }

  function First(): Uri {
    ["vertices", "DocChunk", "core", "a.parquet"]
  }

  function Second(): Uri {
    ["vertices", "DocChunk", "core", "b.parquet"]
  }

  function OneRow(id: string): Table {
    TableData({"id"}, [map["id" := Cell(id)]])
  }

  function ExampleFiles(): map<Uri, Table> {
    map[First() := OneRow("1"), Second() := OneRow("2")]
  }

  // The second manifest claims five rows for its file, which has one.
  function ExampleManifests(): seq<ManifestInfo> {
    [ManifestInfo("run-1", 1, [ManifestFile(First(), 1, 10)]),
     ManifestInfo("run-2", 2, [ManifestFile(Second(), 5, 10)])]
  }

  const POLICY := CompactionPolicy(1, 10, 1)
  const OPTIONS := Options(true, false, true)

  function Group(runId: string, u: Uri, rows: int): CompactionGroup {
    CompactionGroup("DocChunk", false, runId, map["core" := ManifestFile(u, rows, 10)])
  }

  function One(): CompactionGroup {
    Group("run-1", First(), 1)
  }

  function Two(): CompactionGroup {
    Group("run-2", Second(), 5)
  }

  lemma Parses()
    ensures ParseGraphUri(First()) == ParseGraphUri(Second()) == Some(GraphKey(false, "DocChunk", "core"))
    ensures First() != Second()
  {
    assert First()[0] == "vertices" && Second()[0] == "vertices";
    assert First()[3] == "a.parquet" && Second()[3] == "b.parquet" && "a.parquet"[0] == 'a' && "b.parquet"[0] == 'b';
  }

  lemma ExampleEntries()
    ensures Entries(ExampleManifests()) ==
      [Entry("run-1", ManifestFile(First(), 1, 10)), Entry("run-2", ManifestFile(Second(), 5, 10))]
  {
    hide First, Second;
    var listing := ExampleManifests();
    assert listing[..1] == [listing[0]] && listing[..1][..0] == [];
    assert Entries([]) == [] && Entries(listing[..1]) == Tagged(listing[0]);
    assert Tagged(listing[0]) == [Entry("run-1", ManifestFile(First(), 1, 10))];
    assert Tagged(listing[1]) == [Entry("run-2", ManifestFile(Second(), 5, 10))];
  }

  lemma RunsDiffer()
    ensures "run-1" != "run-2" && NoGreater("run-1", "run-2") && !NoGreater("run-2", "run-1")
  {
    var a, b := "run-1", "run-2";
    assert a[4] == '1' && b[4] == '2';
    assert a[1..] == "un-1" && b[1..] == "un-2" && "un-1"[1..] == "n-1" && "un-2"[1..] == "n-2";
    assert "n-1"[1..] == "-1" && "n-2"[1..] == "-2" && "-1"[1..] == "1" && "-2"[1..] == "2";
    assert NoGreater("1", "2") && !NoGreater("2", "1");
    assert NoGreater("-1", "-2") && !NoGreater("-2", "-1");
    assert NoGreater("n-1", "n-2") && !NoGreater("n-2", "n-1");
    assert NoGreater("un-1", "un-2") && !NoGreater("un-2", "un-1");
  }

  lemma ExampleGroups()
    ensures GroupsOf(Entries(ExampleManifests())) == [One(), Two()]
  {
    ExampleEntries();
    Parses();
    RunsDiffer();
    hide First, Second, ExampleManifests, ParseGraphUri;
    var e, f := Entry("run-1", ManifestFile(First(), 1, 10)), Entry("run-2", ManifestFile(Second(), 5, 10));
    TallyStart();
    TallyWith([], e);
    TallyWith([e], f);
    assert [] + [e] == [e] && [e] + [f] == [e, f];
    var key, other := RunKey(false, "DocChunk", "run-1"), RunKey(false, "DocChunk", "run-2");
    assert TallyOf([e]) == Tally([key], map[key := map["core" := e.file]]);
    assert TallyOf([e, f]) == Tally([key, other], map[key := map["core" := e.file], other := map["core" := f.file]]);
  }

  const CHUNKS := EntityKey("DocChunk", false)

  lemma ExampleEntities(groups: seq<CompactionGroup>)
    requires groups == [One(), Two()]
    ensures Entities(groups) == [CHUNKS]
  {
    hide First, Second;
    assert groups[..1] == [One()] && groups[..1][..0] == [];
    assert Entities([]) == [] && Entities([One()]) == [CHUNKS];
  }

  lemma ExampleMembers(groups: seq<CompactionGroup>)
    requires groups == [One(), Two()]
    ensures Where(groups, OfEntity(CHUNKS)) == groups
  {
    hide First, Second;
    assert groups[..1] == [One()] && [One()][..0] == [];
    assert Where([One()], OfEntity(CHUNKS)) == [One()];
  }

  lemma ExampleKinds(groups: seq<CompactionGroup>)
    requires groups == [One(), Two()]
    ensures KindsOf(groups) == ["core"]
  {
    hide First, Second, KindsOf, NoGreater;
    assert groups[0] in groups && "core" in groups[0].files;
    KindsAre(groups, ["core"]);
  }

  lemma ExampleEligible(groups: seq<CompactionGroup>)
    requires groups == [One(), Two()]
    ensures EligibleOf(groups, CHUNKS) == groups
  {
    ExampleMembers(groups);
    ExampleKinds(groups);
    AllComplete(groups);
    AsSorted(groups);
    hide First, Second, KindsOf, Where, Sort;
  }

  lemma AllComplete(groups: seq<CompactionGroup>)
    requires groups == [One(), Two()]
    ensures Where(groups, HavingAll(["core"])) == groups
  {
    hide First, Second;
    assert groups[..1] == [One()] && [One()][..0] == [];
    assert Where([One()], HavingAll(["core"])) == [One()];
  }

  lemma AsSorted(groups: seq<CompactionGroup>)
    requires groups == [One(), Two()]
    ensures Sort(RunNoLater, groups) == groups
  {
    RunsDiffer();
    hide First, Second, NoGreater;
    assert groups[1..] == [Two()] && [Two()][1..] == [];
    assert Sort(RunNoLater, [Two()]) == [Two()];
    assert Sort(RunNoLater, groups) == Insert(RunNoLater, One(), [Two()]);
  }

  // With a cap of one the plan has a batch for each run, in this order.
  lemma ExamplePlan(groups: seq<CompactionGroup>)
    requires groups == [One(), Two()]
    ensures PlannedBatches(POLICY, ["core"], groups) == [MakeBatch(["core"], [One()]), MakeBatch(["core"], [Two()])]
  {
    hide First, Second;
    var kinds := ["core"];
    var b, w := POLICY.Budget(), SegmentBytes(kinds, groups);
    assert !Joins(b, w, 0, 1);
    assert GreedyFrom(b, w, 1, 1, 2) == GreedyFrom(b, w, 1, 2, 2) == [Run(1, 2)];
    assert GreedyFrom(b, w, 0, 0, 2) == GreedyFrom(b, w, 0, 1, 2) == [Run(0, 1)] + [Run(1, 2)];
    var runs := [Run(0, 1), Run(1, 2)];
    assert runs[1..] == [Run(1, 2)] && [Run(1, 2)][1..] == [];
    assert groups[0..1] == [One()] && groups[1..2] == [Two()];
    assert MakeBatches(kinds, groups, []) == [];
    assert MakeBatches(kinds, groups, [Run(1, 2)]) == [MakeBatch(kinds, groups[1..2])];
  }

  lemma ExampleJobs()
    ensures PlannedJobs(POLICY, Entries(ExampleManifests())) == [Job([One()], "core"), Job([Two()], "core")]
  {
    var groups := [One(), Two()];
    ExampleGroups();
    ExampleEntities(groups);
    ExampleEntityPlan(groups);
    JobsOfTwo();
    OneEntity(groups);
    hide One, Two, GroupsOf, Entities, EntityPlan, Entries, AllJobs, ExampleManifests, MakeBatch, RunJobs;
  }

  lemma OneEntity(groups: seq<CompactionGroup>)
    requires Entities(groups) == [CHUNKS]
    ensures RunJobs(POLICY, groups, Entities(groups)) == AllJobs(EntityPlan(POLICY, groups, CHUNKS))
  {
    hide EntityPlan, AllJobs;
    assert [CHUNKS][..0] == [];
    assert RunJobs(POLICY, groups, []) == [];
  }

  lemma ExampleEntityPlan(groups: seq<CompactionGroup>)
    requires groups == [One(), Two()]
    ensures EntityPlan(POLICY, groups, CHUNKS) == [MakeBatch(["core"], [One()]), MakeBatch(["core"], [Two()])]
  {
    ExampleMembers(groups);
    ExampleKinds(groups);
    ExampleEligible(groups);
    ExamplePlan(groups);
    hide One, Two, PlannedBatches, EligibleOf, KindsOf, Where, MakeBatch;
  }

  lemma JobsOfTwo()
    ensures AllJobs([MakeBatch(["core"], [One()]), MakeBatch(["core"], [Two()])]) ==
      [Job([One()], "core"), Job([Two()], "core")]
  {
    hide One, Two;
    var batches := [MakeBatch(["core"], [One()]), MakeBatch(["core"], [Two()])];
    assert batches[..1] == [batches[0]] && batches[..1][..0] == [];
    assert AllJobs([batches[0]]) == [Job([One()], "core")];
  }

  lemma OneSource(runId: string, u: Uri, rows: int, files: map<Uri, Table>, id: string)
    requires u in files && files[u] == OneRow(id)
    ensures var job := Job([Group(runId, u, rows)], "core");
      JobFate(files, OPTIONS, job) == if rows == 1 then Fate(true, {u}) else Fate(false, {})
  {
    var groups := [Group(runId, u, rows)];
    var uris := SourceUris(groups, "core");
    assert uris == [u] && Loaded(files, uris) == [OneRow(id)];
    assert Lengths([OneRow(id)]) == [1] && [1][..0] == [];
    assert StoredRows(files, uris) == 1;
    assert groups[0].Rows("core") == rows && RowsIn(groups, "core", 0) == 0;
    assert KindRows(groups, "core") == RowsIn(groups, "core", 1) == rows;
    assert uris[..1] == uris && uris[..0] == [] && Fresh(uris) == 1;
  }

  // The run deletes the first file and then fails.
  lemma ExampleFate()
    ensures RunFate(ExampleFiles(), OPTIONS, PlannedJobs(POLICY, Entries(ExampleManifests()))) == Fate(false, {First()})
  {
    Parses();
    ExampleJobs();
    hide First, Second, PlannedJobs, JobFate, OneRow;
    var jobs, files := [Job([One()], "core"), Job([Two()], "core")], ExampleFiles();
    OneSource("run-1", First(), 1, files, "1");
    OneSource("run-2", Second(), 5, files - {First()}, "2");
    assert jobs[..1] == [jobs[0]];
    OneJob(files, OPTIONS, jobs[0]);
    RunFateLast(files, OPTIONS, jobs);
  }

  lemma ExampleIsSound(storage: Storage, n: nat)
    ensures SoundManifests(storage, [], ExampleManifests(), n)
  {
    ExampleEntries();
    Parses();
    ExamplePaths(storage, n);
    hide First, Second, ParseGraphUri, Entries;
  }

  // None of the paths is one of a new part.
  lemma ExamplePaths(storage: Storage, n: nat)
    ensures storage.Old(First(), n) && storage.Old(Second(), n) && storage.Old(Healthcheck([]), n)
    ensures Healthcheck([]) != First() && Healthcheck([]) != Second()
  {
    assert First()[3] == "a.parquet" && Second()[3] == "b.parquet" && Healthcheck([]) == ["healthcheck.parquet"];
    assert "a.parquet"[0] == 'a' && "b.parquet"[0] == 'b' && "healthcheck.parquet"[0] == 'h';
    forall m | m >= n
      ensures PartFile(storage.uuid(m))[0] == 'p'
    {
    }
  }

  const KEEP_ALL := Retention(1, 1, 1)

  lemma ExampleMentions(m: ManifestInfo, f: ManifestFile)
    requires m in ExampleManifests() && f in m.files
    ensures f.uri == First() || f.uri == Second()
  {
    hide First, Second;
  }

  lemma ExampleRecent(k: nat)
    requires k < 2
    ensures ExampleManifests()[k] in KeptManifests(ExampleManifests(), 10, KEEP_ALL)
  {
    var listing := ExampleManifests();
    CollectedMembers(listing);
    assert listing[k] in Recent(Collected(listing), 10, KEEP_ALL);
    RecentIsKept(listing, listing[k]);
  }

  lemma ExampleKeepsAll(files: set<Uri>)
    ensures First() in KeepFiles([], files, ExampleManifests(), 10, KEEP_ALL)
    ensures Second() in KeepFiles([], files, ExampleManifests(), 10, KEEP_ALL)
    ensures forall u | u in KeepFiles([], files, ExampleManifests(), 10, KEEP_ALL) ::
      u == First() || u == Second() || u == Healthcheck([])
  {
    hide First, Second, Healthcheck, KeptManifests, ExampleManifests;
    ExampleKept();
    ExampleOnlyKept();
  }

  lemma ExampleKept()
    ensures {First(), Second()} <= Mentioned(KeptManifests(ExampleManifests(), 10, KEEP_ALL))
  {
    hide First, Second, KeptManifests;
    var listing := ExampleManifests();
    ExampleRecent(0);
    ExampleRecent(1);
    assert listing[0].files[0].uri == First() && listing[1].files[0].uri == Second();
  }

  lemma ExampleOnlyKept()
    ensures Mentioned(KeptManifests(ExampleManifests(), 10, KEEP_ALL)) <= {First(), Second()}
  {
    var kept := KeptManifests(ExampleManifests(), 10, KEEP_ALL);
    KeptIsMentioned(ExampleManifests(), 10, KEEP_ALL);
    hide First, Second, KeptManifests, ExampleManifests;
    forall u | u in Mentioned(kept)
      ensures u == First() || u == Second()
    {
      var m, f :| m in kept && f in m.files && f.uri == u;
      ExampleMentions(m, f);
    }
  }

  lemma RecentIsKept(listing: seq<ManifestInfo>, m: ManifestInfo)
    requires m in Recent(Collected(listing), 10, KEEP_ALL)
    ensures m in KeptManifests(listing, 10, KEEP_ALL)
  {
    var manifests := Collected(listing);
    var recent, compactions, newest :=
      Recent(manifests, 10, KEEP_ALL), NewestCompactions(manifests, KEEP_ALL), Newest(manifests, KEEP_ALL);
    assert KeptManifests(listing, 10, KEEP_ALL) == recent + compactions + newest;
  }

  lemma ExampleAlone()
    ensures Candidates([], [], ExampleFiles().Keys, ExampleManifests(), 10, KEEP_ALL) == {}
  {
    hide KeepFiles;
    ExampleKeepsAll(ExampleFiles().Keys);
  }

  // All paths that survive, if only these files are mentioned.
  lemma OnlySecondLeft(left: map<Uri, Table>)
    requires FailureCosts(
      ExampleFiles(), {First()}, Left([], [], ExampleFiles(), ExampleManifests(), 10, KEEP_ALL), left, [], [])
    ensures left == map[Second() := OneRow("2")]
  {
    ExampleAlone();
    Parses();
    hide First, Second, Candidates, OneRow;
    assert Left([], [], ExampleFiles(), ExampleManifests(), 10, KEEP_ALL) == ExampleFiles();
    assert forall u | u in left :: u in ExampleFiles();
    assert left.Keys == {Second()};
  }

  // Alone, the collection would delete nothing; after the run the row of the first file is in no file any more.
  method LostRow() returns (storage: Storage, r: Result<Report>)
    ensures fresh(storage) && storage.manifests == ExampleManifests() && r.Err?
    ensures Candidates([], [], ExampleFiles().Keys, ExampleManifests(), 10, KEEP_ALL) == {}
    ensures storage.files == map[Second() := OneRow("2")]
  {
    hide Candidates, First, Second, Left, ExampleManifests, ExampleFiles, RunFate, PlannedJobs, FailureCosts;
    hide AllStillStored, TruthfulManifests, SoundManifests, OneRow;
    ExampleAlone();
    ExampleFate();
    NoCompactions();
    storage := ExampleStorage();
    ExampleIsSound(storage, storage.issued);
    r := CompactAndCollect(storage, [], POLICY, OPTIONS, "compaction-1", 3, 10, KEEP_ALL, [], 1000);
    OnlySecondLeft(storage.files);
  }

  lemma NoCompactions()
    ensures forall m | m in ExampleManifests() :: !IsCompaction(m)
  {
    hide First, Second;
    assert "run-1"[0] == 'r' && "run-2"[0] == 'r' && "compaction-"[0] == 'c';
  }

  method ExampleStorage() returns (storage: Storage)
    ensures fresh(storage) && storage.Valid() && storage.issued == 0
    ensures storage.files == ExampleFiles() && storage.manifests == ExampleManifests()
  {
    forall m, n | Strokes(m) == Strokes(n)
      ensures m == n
    {
      StrokesDiffer(m, n);
    }
    assert First()[3][0] == 'a' && Second()[3][0] == 'b' && forall id :: PartFile(id)[0] == 'p';
    storage := new Storage(ExampleFiles(), ExampleManifests(), Strokes, (t: Table) => 10);
  }
}
