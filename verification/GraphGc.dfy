// Collecting parquet files that no kept manifest mentions (retikon_core/compaction/gc.py).

module GraphGc {
  import opened CompactionTypes
  import opened GraphStorage
  import opened Sequences
  import opened StableSort
  import opened Tables

  // Times are in microseconds.
  const HOUR := 3_600_000_000

  datatype Retention = Retention(recentHours: int, compactions: int, latest: int)

  datatype GcPlan = GcPlan(keepManifests: seq<ManifestInfo>, keepFiles: set<Uri>, candidates: seq<Uri>)

  predicate IsCompaction(m: ManifestInfo) {
    "compaction-" <= m.runId
  }

  predicate NoNewer(a: ManifestInfo, b: ManifestInfo) {
    a.completedAt <= b.completedAt
  }

  predicate NoOlder(a: ManifestInfo, b: ManifestInfo) {
    a.completedAt >= b.completedAt
  }

  // collect_manifests: oldest first.
  function Collected(listing: seq<ManifestInfo>): seq<ManifestInfo> {
    Sort(NoNewer, listing)
  }

  function CompletedSince(cutoff: int): ManifestInfo -> bool {
    (m: ManifestInfo) => m.completedAt >= cutoff
  }

  function Recent(manifests: seq<ManifestInfo>, now: int, r: Retention): seq<ManifestInfo> {
    if r.recentHours > 0 then Where(manifests, CompletedSince(now - r.recentHours * HOUR)) else []
  }

  function NewestCompactions(manifests: seq<ManifestInfo>, r: Retention): seq<ManifestInfo> {
    Take(Sort(NoOlder, Where(manifests, IsCompaction)), r.compactions)
  }

  function Newest(manifests: seq<ManifestInfo>, r: Retention): seq<ManifestInfo> {
    Take(Sort(NoOlder, manifests), r.latest)
  }

  function KeptManifests(listing: seq<ManifestInfo>, now: int, r: Retention): seq<ManifestInfo> {
    var manifests := Collected(listing);
    Recent(manifests, now, r) + NewestCompactions(manifests, r) + Newest(manifests, r)
  }

  function Mentioned(ms: seq<ManifestInfo>): set<Uri> {
    set m, f | m in ms && f in m.files :: f.uri
  }

  function Healthcheck(root: Uri): Uri {
    root + ["healthcheck.parquet"]
  }

  ghost function KeepFiles(root: Uri, files: set<Uri>, listing: seq<ManifestInfo>, now: int, r: Retention): set<Uri> {
    Mentioned(KeptManifests(listing, now, r)) + (if Healthcheck(root) in files then {Healthcheck(root)} else {})
  }

  // ---------------------------------------------------------------- excluded paths

  function Path(u: Uri): (text: string)
    ensures |u| == 1 ==> text == u[0]
  {
    if u == [] then "" else if |u| == 1 then u[0] else u[0] + "/" + Path(u[1..])
  }

  function StripSlashes(s: string): string {
    if s != [] && s[0] == '/' then StripSlashes(s[1..])
    else if s != [] && s[|s| - 1] == '/' then StripSlashes(s[..|s| - 1])
    else s
  }

  predicate Excluded(root: Uri, prefixes: seq<string>, u: Uri) {
    exists p :: p in prefixes && Path(root) + "/" + StripSlashes(p) <= Path(u)
  }

  // What a collection may delete: everything stored but what is kept or excluded; without any
  // manifest, nothing.
  ghost function Candidates(
    root: Uri, prefixes: seq<string>, files: set<Uri>, listing: seq<ManifestInfo>, now: int, r: Retention): set<Uri>
  {
    if listing == [] then {}
    else set u | u in files && !Excluded(root, prefixes, u) && u !in KeepFiles(root, files, listing, now, r)
  }

  // What a collection leaves of some files.
  ghost function Left(
    root: Uri, prefixes: seq<string>, files: map<Uri, Table>, listing: seq<ManifestInfo>, now: int, r: Retention)
    : map<Uri, Table>
  {
    files - Candidates(root, prefixes, files.Keys, listing, now, r)
  }

  method BuildGcPlan(storage: Storage, root: Uri, now: int, r: Retention, prefixes: seq<string>) returns (plan: GcPlan)
    ensures (set u | u in plan.candidates) == Candidates(root, prefixes, storage.files.Keys, storage.manifests, now, r)
    ensures forall i, j | 0 <= i < j < |plan.candidates| :: plan.candidates[i] != plan.candidates[j]
    ensures storage.manifests != [] ==>
      && plan.keepManifests == KeptManifests(storage.manifests, now, r)
      && plan.keepFiles == KeepFiles(root, storage.files.Keys, storage.manifests, now, r)
  {
    if storage.manifests == [] {
      return GcPlan([], {}, []);
    }
    var keepSet := KeptManifests(storage.manifests, now, r);
    var keepFiles := CollectFiles(keepSet);
    if Healthcheck(root) in storage.files {
      keepFiles := keepFiles + {Healthcheck(root)};
    }
    var candidates := ListCandidates(storage.files.Keys, root, prefixes, keepFiles);
    plan := GcPlan(keepSet, keepFiles, candidates);
  }

  method CollectFiles(keepSet: seq<ManifestInfo>) returns (keepFiles: set<Uri>)
    ensures keepFiles == Mentioned(keepSet)
  {
    keepFiles := {};
    for i := 0 to |keepSet|
      invariant keepFiles == Mentioned(keepSet[..i])
    {
      var more := set f | f in keepSet[i].files :: f.uri;
      keepFiles := keepFiles + more;
      assert keepSet[..i + 1] == keepSet[..i] + [keepSet[i]];
    }
    assert keepSet[..|keepSet|] == keepSet;
  }

  // The paths come in the order the file system lists them.
  method ListCandidates(paths: set<Uri>, root: Uri, prefixes: seq<string>, keepFiles: set<Uri>)
    returns (candidates: seq<Uri>)
    ensures forall u :: u in candidates <==> u in paths && !Excluded(root, prefixes, u) && u !in keepFiles
    ensures forall i, j | 0 <= i < j < |candidates| :: candidates[i] != candidates[j]
  {
    candidates := [];
    var rest := paths;
    while rest != {}
      invariant rest <= paths
      invariant forall u ::
        u in candidates <==> u in paths && u !in rest && !Excluded(root, prefixes, u) && u !in keepFiles
      invariant forall i, j | 0 <= i < j < |candidates| :: candidates[i] != candidates[j]
      decreases rest
    {
      var u :| u in rest;
      rest := rest - {u};
      if Excluded(root, prefixes, u) {
        continue;
      }
      if u in keepFiles {
        continue;
      }
      candidates := candidates + [u];
    }
  }

  method ExecuteGc(storage: Storage, plan: GcPlan, dryRun: bool, batchSize: int) returns (deleted: nat)
    requires storage.Valid()
    modifies storage`files, storage`states
    ensures storage.Valid()
    ensures deleted == if dryRun then 0 else |plan.candidates|
    ensures storage.files == old(storage.files) - if dryRun then {} else set u | u in plan.candidates
  {
    deleted := 0;
    if dryRun || plan.candidates == [] {
      return;
    }
    var all := plan.candidates;
    var batch: seq<Uri> := [];
    for i := 0 to |all|
      invariant storage.Valid()
      invariant deleted + |batch| == i && batch == all[deleted..i]
      invariant storage.files == old(storage.files) - (set u | u in all[..deleted])
    {
      batch := batch + [all[i]];
      if |batch| >= batchSize {
        RemovedNext(old(storage.files), all, deleted, batch);
        storage.DeleteAll(batch);
        deleted := deleted + |batch|;
        batch := [];
      }
    }
    if batch != [] {
      RemovedNext(old(storage.files), all, deleted, batch);
      storage.DeleteAll(batch);
      deleted := deleted + |batch|;
    }
    assert all[..deleted] == all;
  }

  // Planning and deleting.
  method Collect(
    storage: Storage, base: Uri, now: int, retention: Retention, prefixes: seq<string>, batchSize: int)
    requires storage.Valid()
    modifies storage`files, storage`states
    ensures storage.Valid()
    ensures storage.files == Left(base, prefixes, old(storage.files), storage.manifests, now, retention)
  {
    hide Candidates;
    var plan := BuildGcPlan(storage, base, now, retention, prefixes);
    var deleted := ExecuteGc(storage, plan, false, batchSize);
  }

  lemma KeptIsMentioned(listing: seq<ManifestInfo>, now: int, r: Retention)
    ensures forall m | m in KeptManifests(listing, now, r) :: m in listing
  {
    CollectedMembers(listing);
    var manifests := Collected(listing);
    var compactions := Where(manifests, IsCompaction);
    SameMembers(Sort(NoOlder, compactions), compactions);
    SameMembers(Sort(NoOlder, manifests), manifests);
  }

  lemma RemovedNext(files: map<Uri, Table>, all: seq<Uri>, k: nat, batch: seq<Uri>)
    requires k + |batch| <= |all| && batch == all[k..k + |batch|]
    ensures var more := all[..k + |batch|];
      files - (set u | u in all[..k]) - (set u | u in batch) == files - (set u | u in more)
  {
    assert all[..k + |batch|] == all[..k] + batch;
  }

  // ---------------------------------------------------------------- what a collection guarantees

  lemma CollectedMembers(listing: seq<ManifestInfo>)
    ensures forall m :: m in Collected(listing) <==> m in listing
  {
    SameMembers(Collected(listing), listing);
  }

  lemma TakeMonotone<T>(s: seq<T>, a: int, b: int)
    requires a <= b
    ensures forall x | x in Take(s, a) :: x in Take(s, b)
  {
  }

  // Keeping more never deletes more.
  lemma RetentionMonotone(
    root: Uri, prefixes: seq<string>, files: set<Uri>, listing: seq<ManifestInfo>, now: int, r: Retention,
    r': Retention)
    requires r.recentHours <= r'.recentHours && r.compactions <= r'.compactions && r.latest <= r'.latest
    ensures KeepFiles(root, files, listing, now, r) <= KeepFiles(root, files, listing, now, r')
    ensures Candidates(root, prefixes, files, listing, now, r') <= Candidates(root, prefixes, files, listing, now, r)
  {
    var manifests := Collected(listing);
    TakeMonotone(Sort(NoOlder, Where(manifests, IsCompaction)), r.compactions, r'.compactions);
    TakeMonotone(Sort(NoOlder, manifests), r.latest, r'.latest);
    assert forall m | m in KeptManifests(listing, now, r) :: m in KeptManifests(listing, now, r');
  }

  // Collecting again at the same time finds nothing.
  lemma CollectingTwice(
    root: Uri, prefixes: seq<string>, files: set<Uri>, listing: seq<ManifestInfo>, now: int, r: Retention)
    ensures var left := files - Candidates(root, prefixes, files, listing, now, r);
      Candidates(root, prefixes, left, listing, now, r) == {}
  {
    var left := files - Candidates(root, prefixes, files, listing, now, r);
    if Healthcheck(root) in files {
      assert Healthcheck(root) in KeepFiles(root, files, listing, now, r);
    }
    assert KeepFiles(root, left, listing, now, r) == KeepFiles(root, files, listing, now, r);
  }

  // The other manifests that are at least as new.
  function Outranking(manifests: seq<ManifestInfo>, m: ManifestInfo): set<ManifestInfo> {
    set x | x in manifests && x != m && x.completedAt >= m.completedAt
  }

  // A manifest that is not among the newest n of a list has n others at least as new.
  lemma NotTakenIsOutranked(s: seq<ManifestInfo>, m: ManifestInfo, n: int)
    requires n > 0 && m in s && Distinct(s)
    requires m !in Take(Sort(NoOlder, s), n)
    ensures |Outranking(s, m)| >= n
  {
    var sorted := Sort(NoOlder, s);
    SortIsSorted(NoOlder, s);
    SameMembers(sorted, s);
    DistinctReordered(sorted, s);
    TopOutranks(sorted, m, n);
    assert Outranking(sorted, m) == Outranking(s, m);
  }

  lemma TopOutranks(sorted: seq<ManifestInfo>, m: ManifestInfo, n: int)
    requires n > 0 && m in sorted && Distinct(sorted) && Sorted(NoOlder, sorted)
    requires m !in Take(sorted, n)
    ensures |Outranking(sorted, m)| >= n
  {
    var k :| 0 <= k < |sorted| && sorted[k] == m;
    assert n <= k;
    var top := sorted[..n];
    forall x | x in top
      ensures x in Outranking(sorted, m)
    {
      var i :| 0 <= i < n && sorted[i] == x;
      assert NoOlder(sorted[i], sorted[k]);
    }
    DistinctCount(top);
    SubsetSize((set x | x in top), Outranking(sorted, m));
  }

  // A manifest is only dropped when it is too old, has enough newer ones, and, if it is a
  // compaction, enough newer compactions.
  lemma DroppedManifest(listing: seq<ManifestInfo>, now: int, r: Retention, m: ManifestInfo)
    requires m in listing && Distinct(listing)
    requires m !in KeptManifests(listing, now, r)
    ensures r.recentHours > 0 ==> m.completedAt < now - r.recentHours * HOUR
    ensures r.latest > 0 ==> |Outranking(listing, m)| >= r.latest
    ensures r.compactions > 0 && IsCompaction(m) ==>
      |set x | x in Outranking(listing, m) && IsCompaction(x)| >= r.compactions
  {
    var manifests := Collected(listing);
    CollectedMembers(listing);
    DistinctReordered(manifests, listing);
    assert Outranking(manifests, m) == Outranking(listing, m);
    if r.latest > 0 {
      NotTakenIsOutranked(manifests, m, r.latest);
    }
    if r.compactions > 0 && IsCompaction(m) {
      DroppedCompaction(manifests, r, m);
    }
  }

  lemma DroppedCompaction(manifests: seq<ManifestInfo>, r: Retention, m: ManifestInfo)
    requires m in manifests && Distinct(manifests) && r.compactions > 0 && IsCompaction(m)
    requires m !in NewestCompactions(manifests, r)
    ensures |set x | x in Outranking(manifests, m) && IsCompaction(x)| >= r.compactions
  {
    var compactions := Where(manifests, IsCompaction);
    WhereDistinct(manifests, IsCompaction);
    NotTakenIsOutranked(compactions, m, r.compactions);
    assert Outranking(compactions, m) == set x | x in Outranking(manifests, m) && IsCompaction(x);
  }

  // ---------------------------------------------------------------- exactly what is kept

  // Those that are newer, all of them and the compactions.
  function Newer(listing: seq<ManifestInfo>, m: ManifestInfo): set<ManifestInfo> {
    set x | x in listing && x.completedAt > m.completedAt
  }

  function NewerCompactions(listing: seq<ManifestInfo>, m: ManifestInfo): set<ManifestInfo> {
    set x | x in listing && "compaction-" <= x.runId && x.completedAt > m.completedAt
  }

  // The reasons to keep a manifest: it is recent, one of the latest, or one of the latest compactions. Times are
  // in microseconds.
  ghost predicate WorthKeeping(listing: seq<ManifestInfo>, now: int, r: Retention, m: ManifestInfo) {
    || (r.recentHours > 0 && now - m.completedAt <= r.recentHours * 3_600_000_000)
    || |Newer(listing, m)| < r.latest
    || ("compaction-" <= m.runId && |NewerCompactions(listing, m)| < r.compactions)
  }

  // No two manifests were completed at the same time.
  ghost predicate DistinctTimes(listing: seq<ManifestInfo>) {
    forall x, y | x in listing && y in listing && x.completedAt == y.completedAt :: x == y
  }

  // A manifest among the first n of a list from new to old has fewer than n newer ones.
  lemma TakenIsNewest(s: seq<ManifestInfo>, m: ManifestInfo, n: int)
    requires m in Take(Sort(NoOlder, s), n)
    ensures |Newer(s, m)| < n
  {
    hide Newer, Take, Sort;
    SortIsSorted(NoOlder, s);
    SameMembers(Sort(NoOlder, s), s);
    SameNewer(Sort(NoOlder, s), s, m);
    TakenInOrder(Sort(NoOlder, s), m, n);
  }

  lemma SameNewer(a: seq<ManifestInfo>, b: seq<ManifestInfo>, m: ManifestInfo)
    requires forall x :: x in a <==> x in b
    ensures Newer(a, m) == Newer(b, m)
  {
  }

  lemma TakenInOrder(sorted: seq<ManifestInfo>, m: ManifestInfo, n: int)
    requires Sorted(NoOlder, sorted) && m in Take(sorted, n)
    ensures |Newer(sorted, m)| < n
  {
    var k :| 0 <= k < |sorted| && k < n && sorted[k] == m;
    hide Newer, Take, Sorted;
    NewerIsBefore(sorted, k);
    PrefixSize(sorted, k);
    SubsetSize(Newer(sorted, m), set i | 0 <= i < k :: sorted[i]);
  }

  lemma NewerIsBefore(sorted: seq<ManifestInfo>, k: nat)
    requires k < |sorted| && Sorted(NoOlder, sorted)
    ensures Newer(sorted, sorted[k]) <= set i | 0 <= i < k :: sorted[i]
  {
    forall x | x in Newer(sorted, sorted[k])
      ensures exists i | 0 <= i < k :: sorted[i] == x
    {
      var i :| 0 <= i < |sorted| && sorted[i] == x;
      assert k < i ==> NoOlder(sorted[k], sorted[i]);
    }
  }

  lemma {:induction false} PrefixSize(s: seq<ManifestInfo>, k: nat)
    requires k <= |s|
    ensures |set i | 0 <= i < k :: s[i]| <= k
  {
    if k > 0 {
      PrefixSize(s, k - 1);
      assert (set i | 0 <= i < k :: s[i]) == (set i | 0 <= i < k - 1 :: s[i]) + {s[k - 1]};
    }
  }

  lemma CompactionMembers(listing: seq<ManifestInfo>, m: ManifestInfo)
    ensures forall x :: x in Where(Collected(listing), IsCompaction) <==> x in listing && "compaction-" <= x.runId
    ensures Newer(Where(Collected(listing), IsCompaction), m) == NewerCompactions(listing, m)
    ensures Newer(Collected(listing), m) == Newer(listing, m)
  {
    CollectedMembers(listing);
  }

  // A manifest that is kept is worth keeping ...
  lemma KeptIsWorthKeeping(listing: seq<ManifestInfo>, now: int, r: Retention, m: ManifestInfo)
    requires m in KeptManifests(listing, now, r)
    ensures m in listing && WorthKeeping(listing, now, r, m)
  {
    var manifests := Collected(listing);
    var compactions := Where(manifests, IsCompaction);
    KeptIsMentioned(listing, now, r);
    CompactionMembers(listing, m);
    hide Newer, NewerCompactions, Sort;
    if m in Newest(manifests, r) {
      TakenIsNewest(manifests, m, r.latest);
    } else if m in NewestCompactions(manifests, r) {
      TakenIsNewest(compactions, m, r.compactions);
      SameMembers(Sort(NoOlder, compactions), compactions);
    }
  }

  // ... and, if no two were completed at the same time, one that is worth keeping is kept.
  lemma KeptExactly(listing: seq<ManifestInfo>, now: int, r: Retention, m: ManifestInfo)
    requires m in listing && Distinct(listing) && DistinctTimes(listing)
    ensures m in KeptManifests(listing, now, r) <==> WorthKeeping(listing, now, r, m)
  {
    if m in KeptManifests(listing, now, r) {
      KeptIsWorthKeeping(listing, now, r, m);
    } else {
      DroppedManifest(listing, now, r, m);
      assert Outranking(listing, m) == Newer(listing, m);
      assert (set x | x in Outranking(listing, m) && IsCompaction(x)) == NewerCompactions(listing, m);
    }
  }

  // So a file is deleted exactly when it is stored, lies below no excluded prefix, is not the health check,
  // and only manifests mention it that are not worth keeping.
  lemma CandidatesExactly(
    root: Uri, prefixes: seq<string>, files: set<Uri>, listing: seq<ManifestInfo>, now: int, r: Retention, u: Uri)
    requires listing != [] && Distinct(listing) && DistinctTimes(listing)
    ensures u in Candidates(root, prefixes, files, listing, now, r) <==>
      && u in files && !Excluded(root, prefixes, u) && u != root + ["healthcheck.parquet"]
      && forall m, f | m in listing && f in m.files && f.uri == u :: !WorthKeeping(listing, now, r, m)
  {
    hide WorthKeeping, Excluded, KeptManifests;
    KeptIsMentioned(listing, now, r);
    forall m | m in listing
      ensures m in KeptManifests(listing, now, r) <==> WorthKeeping(listing, now, r, m)
    {
      KeptExactly(listing, now, r, m);
    }
  }

  // A prefix loses its slashes at both ends and nothing else.
  lemma {:induction false} StripSlashesShape(s: string) returns (i: nat, j: nat)
    ensures i <= j <= |s| && StripSlashes(s) == s[i..j]
    ensures forall k | 0 <= k < i || j <= k < |s| :: s[k] == '/'
    ensures i < j ==> s[i] != '/' && s[j - 1] != '/'
    decreases |s|
  {
    if s != [] && s[0] == '/' {
      i, j := StripSlashesShape(s[1..]);
      i, j := i + 1, j + 1;
    } else if s != [] && s[|s| - 1] == '/' {
      i, j := StripSlashesShape(s[..|s| - 1]);
    } else {
      i, j := 0, |s|;
    }
  }

  lemma {:induction false} PathAppend(a: Uri, b: Uri)
    requires a != [] && b != []
    ensures Path(a + b) == Path(a) + "/" + Path(b)
  {
    assert (a + b)[1..] == a[1..] + b && (a + b)[0] == a[0];
    if |a| > 1 {
      PathAppend(a[1..], b);
    }
  }

  // A file below the root is excluded exactly when its path from there on begins with one of the prefixes,
  // without the slashes around it.
  lemma ExcludedBelow(root: Uri, prefixes: seq<string>, rest: Uri)
    requires root != [] && rest != []
    ensures Excluded(root, prefixes, root + rest) <==> exists p | p in prefixes :: StripSlashes(p) <= Path(rest)
  {
    PathAppend(root, rest);
    forall p | p in prefixes
      ensures Path(root) + "/" + StripSlashes(p) <= Path(root + rest) <==> StripSlashes(p) <= Path(rest)
    {
      SamePrefix(Path(root) + "/", StripSlashes(p), Path(rest));
    }
  }

  lemma SamePrefix(stem: string, a: string, b: string)
    ensures stem + a <= stem + b <==> a <= b
  {
    if stem + a <= stem + b {
      assert (stem + b)[..|stem + a|][|stem|..] == a;
      assert b[..|a|] == a;
    }
  }

  // Manifests are gone through from the oldest on.
  lemma CollectedOldestFirst(listing: seq<ManifestInfo>)
    ensures multiset(Collected(listing)) == multiset(listing)
    ensures forall i, j | 0 <= i < j < |listing| ::
      Collected(listing)[i].completedAt <= Collected(listing)[j].completedAt
  {
    SortIsSorted(NoNewer, listing);
  }

  // The newest compaction is kept.
  lemma NewestCompactionKept(listing: seq<ManifestInfo>, now: int, r: Retention, m: ManifestInfo)
    requires r.compactions >= 1 && m in listing && IsCompaction(m)
    requires forall x | x in listing && IsCompaction(x) && x != m :: x.completedAt < m.completedAt
    ensures m in KeptManifests(listing, now, r)
  {
    var manifests := Collected(listing);
    CollectedMembers(listing);
    var compactions := Where(manifests, IsCompaction);
    var sorted := Sort(NoOlder, compactions);
    SortIsSorted(NoOlder, compactions);
    SameMembers(sorted, compactions);
    var k :| 0 <= k < |sorted| && sorted[k] == m;
    assert k > 0 ==> NoOlder(sorted[0], sorted[k]);
    assert sorted[0] in compactions && sorted[0] == m;
    assert Take(sorted, r.compactions)[0] == m;
  }
}
