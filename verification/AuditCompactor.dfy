// The audit-log batch planner (retikon_core/audit/compactor.py): the same greedy walk as the graph
// planner over one byte budget, but single files are dropped and it stops after max_batches.

module AuditCompactor {
  import opened CompactionTypes
  import opened Greedy
  import opened Optionals
  import opened Sequences
  import opened StableSort

  datatype AuditFile = AuditFile(uri: Uri, size: int, updatedAt: Option<int>)

  datatype AuditPolicy = AuditPolicy(targetMinBytes: int, targetMaxBytes: int, maxFilesPerBatch: int, maxBatches: int)
  {
    function Budget(): Budget {
      Greedy.Budget(targetMinBytes, targetMaxBytes, maxFilesPerBatch)
    }
  }

  // Sort key: time of the last update, files without one first, then size.
  predicate NoLater(f: AuditFile, g: AuditFile) {
    var t, u := f.updatedAt, g.updatedAt;
    var x, y := if t.None? then 0 else t.value, if u.None? then 0 else u.value;
    x < y || (x == y && f.size <= g.size)
  }

  // Bytes of the files [i, j).
  function SizeIn(files: seq<AuditFile>, i: nat, j: nat): int
    requires j <= |files|
  {
    if j <= i then 0 else SizeIn(files, i, j - 1) + files[j - 1].size
  }

  function Sizes(files: seq<AuditFile>): (s: seq<int>)
    ensures |s| == |files|
  {
    seq(|files|, i requires 0 <= i < |files| => files[i].size)
  }

  lemma {:induction false} SizeInIsSum(files: seq<AuditFile>, i: nat, j: nat)
    requires i <= j <= |files|
    ensures SizeIn(files, i, j) == Sum(Sizes(files[i..j]))
  {
    if i < j {
      SizeInIsSum(files, i, j - 1);
      assert Sizes(files[i..j])[..j - i - 1] == Sizes(files[i..j - 1]);
    } else {
      assert Sizes(files[i..j]) == [];
    }
  }

  function SegmentSize(files: seq<AuditFile>): Weight {
    (i: nat, j: nat) => if j <= |files| then SizeIn(files, i, j) else 0
  }

  // Runs of at least two files.
  function Multiple(runs: seq<Run>): seq<Run> {
    if runs == [] then []
    else if runs[0].from + 1 < runs[0].to then [runs[0]] + Multiple(runs[1..])
    else Multiple(runs[1..])
  }

  function Parts(files: seq<AuditFile>, runs: seq<Run>): (parts: seq<seq<AuditFile>>)
    ensures |parts| == |runs|
  {
    if runs == [] then [] else [Slice(files, runs[0].from, runs[0].to)] + Parts(files, runs[1..])
  }

  // flush(): a batch of one file is dropped.
  function AddPart(batches: seq<seq<AuditFile>>, current: seq<AuditFile>): seq<seq<AuditFile>> {
    if |current| > 1 then batches + [current] else batches
  }

  // The greedy segments of the sorted files that hold at least two.
  function AllRuns(policy: AuditPolicy, ordered: seq<AuditFile>): seq<Run> {
    Multiple(GreedyRuns(policy.Budget(), SegmentSize(ordered), |ordered|))
  }

  // The plan: the first max_batches of them.
  function AuditPlan(policy: AuditPolicy, files: seq<AuditFile>): seq<seq<AuditFile>> {
    if policy.maxFilesPerBatch < 2 then []
    else
      var ordered := Sort(NoLater, files);
      Take(Parts(ordered, AllRuns(policy, ordered)), policy.maxBatches)
  }

  // What is still to come when the walk reached file m with [start, m) as current files.
  function Rest(b: Budget, w: Weight, files: seq<AuditFile>, start: nat, m: nat): seq<seq<AuditFile>>
    requires start <= m <= |files|
  {
    Parts(files, Multiple(GreedyFrom(b, w, start, m, |files|)))
  }

  lemma RestWith(b: Budget, w: Weight, files: seq<AuditFile>, start: nat, m: nat)
    requires start <= m < |files| && (start == m || Joins(b, w, start, m))
    ensures Rest(b, w, files, start, m) == Rest(b, w, files, start, m + 1)
  {
  }

  lemma RestAfter(b: Budget, w: Weight, files: seq<AuditFile>, start: nat, m: nat)
    requires start < m <= |files| && (m == |files| || !Joins(b, w, start, m))
    ensures Rest(b, w, files, start, m) == AddPart([], files[start..m]) + Rest(b, w, files, m, m)
  {
    var rest := GreedyFrom(b, w, m, m, |files|);
    var runs := [Run(start, m)] + rest;
    assert GreedyFrom(b, w, start, m, |files|) == runs && runs[1..] == rest;
    assert start + 1 < m ==> Multiple(runs)[1..] == Multiple(rest);
  }

  // State of the walk at file m: the current files [start, m) with their size, the batches made so
  // far, and greedy's way of going on from there.
  ghost predicate Walking(
    policy: AuditPolicy, files: seq<AuditFile>, start: nat, m: nat, current: seq<AuditFile>, bytes: int,
    batches: seq<seq<AuditFile>>, all: seq<seq<AuditFile>>)
  {
    && start <= m <= |files| && current == files[start..m] && bytes == SizeIn(files, start, m)
    && all == batches + Rest(policy.Budget(), SegmentSize(files), files, start, m)
  }

  // May file m join the current files [start, m)?
  predicate FileJoins(policy: AuditPolicy, files: seq<AuditFile>, start: nat, m: nat)
    requires m < |files|
  {
    && m - start < policy.maxFilesPerBatch
    && SizeIn(files, start, m) < policy.targetMinBytes
    && SizeIn(files, start, m + 1) <= policy.targetMaxBytes
  }

  lemma TakeFile(
    policy: AuditPolicy, files: seq<AuditFile>, start: nat, m: nat, current: seq<AuditFile>, bytes: int,
    batches: seq<seq<AuditFile>>, all: seq<seq<AuditFile>>)
    requires Walking(policy, files, start, m, current, bytes, batches, all) && m < |files|
    requires start == m || FileJoins(policy, files, start, m)
    ensures Walking(policy, files, start, m + 1, current + [files[m]], bytes + files[m].size, batches, all)
  {
    assert start < m ==> Joins(policy.Budget(), SegmentSize(files), start, m);
    assert files[start..m + 1] == files[start..m] + [files[m]];
    RestWith(policy.Budget(), SegmentSize(files), files, start, m);
  }

  lemma Flush(
    policy: AuditPolicy, files: seq<AuditFile>, start: nat, m: nat, current: seq<AuditFile>, bytes: int,
    batches: seq<seq<AuditFile>>, all: seq<seq<AuditFile>>)
    requires Walking(policy, files, start, m, current, bytes, batches, all) && start < m
    requires m == |files| || !FileJoins(policy, files, start, m)
    ensures Walking(policy, files, m, m, [], 0, AddPart(batches, current), all)
  {
    RestAfter(policy.Budget(), SegmentSize(files), files, start, m);
  }

  method PlanBatches(files: seq<AuditFile>, policy: AuditPolicy) returns (batches: seq<seq<AuditFile>>)
    ensures batches == AuditPlan(policy, files)
  {
    if policy.maxBatches <= 0 {
      return [];
    }
    if policy.maxFilesPerBatch < 2 {
      return [];
    }
    batches := Walk(Sort(NoLater, files), policy);
  }

  lemma WalkStart(policy: AuditPolicy, files: seq<AuditFile>)
    ensures Walking(policy, files, 0, 0, [], 0, [], Parts(files, AllRuns(policy, files)))
  {
  }

  lemma WalkFacts(
    policy: AuditPolicy, files: seq<AuditFile>, start: nat, m: nat, current: seq<AuditFile>, bytes: int,
    batches: seq<seq<AuditFile>>, all: seq<seq<AuditFile>>)
    requires Walking(policy, files, start, m, current, bytes, batches, all)
    ensures start <= m <= |files| && |current| == m - start && bytes == SizeIn(files, start, m)
    ensures batches <= all && (current == [] && m == |files| ==> batches == all)
  {
  }

  method Walk(ordered: seq<AuditFile>, policy: AuditPolicy) returns (batches: seq<seq<AuditFile>>)
    requires policy.maxBatches > 0
    ensures batches == Take(Parts(ordered, AllRuns(policy, ordered)), policy.maxBatches)
  {
    hide Walking, Parts, AllRuns;
    batches := [];
    var current: seq<AuditFile> := [];
    var runningBytes := 0;
    ghost var start: nat, all := 0, Parts(ordered, AllRuns(policy, ordered));
    WalkStart(policy, ordered);
    for m := 0 to |ordered|
      invariant Walking(policy, ordered, start, m, current, runningBytes, batches, all)
      invariant current != [] ==> runningBytes < policy.targetMinBytes && |current| < policy.maxFilesPerBatch
      invariant |batches| < policy.maxBatches
    {
      var item := ordered[m];
      var projected := runningBytes + item.size;
      WalkFacts(policy, ordered, start, m, current, runningBytes, batches, all);
      if current != [] && (projected > policy.targetMaxBytes || |current| >= policy.maxFilesPerBatch) {
        Flush(policy, ordered, start, m, current, runningBytes, batches, all);
        batches := AddPart(batches, current);
        start, current, runningBytes := m, [], 0;
        WalkFacts(policy, ordered, start, m, current, runningBytes, batches, all);
        if |batches| >= policy.maxBatches {
          return;
        }
      }
      TakeFile(policy, ordered, start, m, current, runningBytes, batches, all);
      current := current + [item];
      runningBytes := runningBytes + item.size;
      if runningBytes >= policy.targetMinBytes || |current| >= policy.maxFilesPerBatch {
        Flush(policy, ordered, start, m + 1, current, runningBytes, batches, all);
        batches := AddPart(batches, current);
        start, current, runningBytes := m + 1, [], 0;
        WalkFacts(policy, ordered, start, m + 1, current, runningBytes, batches, all);
        if |batches| >= policy.maxBatches {
          return;
        }
      }
    }
    if current != [] {
      WalkFacts(policy, ordered, start, |ordered|, current, runningBytes, batches, all);
      Flush(policy, ordered, start, |ordered|, current, runningBytes, batches, all);
      batches := AddPart(batches, current);
      start, current, runningBytes := |ordered|, [], 0;
    }
    WalkFacts(policy, ordered, start, |ordered|, current, runningBytes, batches, all);
  }

  // ---------------------------------------------------------------- what a plan guarantees

  // A run of sorted files that may become a batch: two or more, within the cap and the byte limit.
  ghost predicate FitsOneBatch(policy: AuditPolicy, ordered: seq<AuditFile>, r: Run) {
    && r.from < r.to <= |ordered|
    && 2 <= r.to - r.from <= policy.maxFilesPerBatch
    && SizeIn(ordered, r.from, r.to) <= policy.targetMaxBytes
  }

  // A file left out although the walk went on past it: large enough alone, or too large to be
  // joined by its successor.
  ghost predicate RightlySkipped(policy: AuditPolicy, ordered: seq<AuditFile>, i: nat) {
    i + 1 < |ordered| && (ordered[i].size >= policy.targetMinBytes
                          || ordered[i].size + ordered[i + 1].size > policy.targetMaxBytes)
  }

  // The runs are in order and disjoint, start no earlier than file i, fit one batch each, and every
  // file from i to the end of the last one is in a run or was rightly skipped.
  ghost predicate WellChosen(policy: AuditPolicy, ordered: seq<AuditFile>, runs: seq<Run>, i: nat) {
    runs != [] ==>
      && i <= runs[0].from && FitsOneBatch(policy, ordered, runs[0])
      && (forall f: nat | i <= f < runs[0].from :: RightlySkipped(policy, ordered, f))
      && WellChosen(policy, ordered, runs[1..], runs[0].to)
  }

  lemma NoLaterIsOrder()
    ensures TotalPreorder(NoLater)
  {
  }

  // The sort orders by the time of the last update, files without one first, as if that were time zero, and
  // then by size.
  lemma FilesInOrder(files: seq<AuditFile>)
    ensures var ordered := Sort(NoLater, files);
      && multiset(ordered) == multiset(files)
      && forall i, j | 0 <= i < j < |ordered| ::
           var t := if ordered[i].updatedAt.Some? then ordered[i].updatedAt.value else 0;
           var u := if ordered[j].updatedAt.Some? then ordered[j].updatedAt.value else 0;
           t < u || (t == u && ordered[i].size <= ordered[j].size)
  {
    NoLaterIsOrder();
    SortIsSorted(NoLater, files);
  }

  lemma AuditPlanShape(policy: AuditPolicy, files: seq<AuditFile>) returns (ordered: seq<AuditFile>, runs: seq<Run>)
    ensures ordered == Sort(NoLater, files) && multiset(ordered) == multiset(files)
    ensures forall i, j | 0 <= i < j < |ordered| ::
      var t := if ordered[i].updatedAt.Some? then ordered[i].updatedAt.value else 0;
      var u := if ordered[j].updatedAt.Some? then ordered[j].updatedAt.value else 0;
      t < u || (t == u && ordered[i].size <= ordered[j].size)
    ensures AuditPlan(policy, files) == Parts(ordered, runs)
    ensures |runs| <= if policy.maxBatches > 0 then policy.maxBatches else 0
    ensures WellChosen(policy, ordered, runs, 0)
  {
    FilesInOrder(files);
    hide NoLater, Sort, Parts, AllRuns, WellChosen;
    ordered := Sort(NoLater, files);
    if policy.maxFilesPerBatch < 2 {
      runs := [];
      NothingChosen(policy, ordered);
    } else {
      runs := ChosenRuns(policy, ordered);
    }
  }

  lemma NothingChosen(policy: AuditPolicy, ordered: seq<AuditFile>)
    ensures Parts(ordered, []) == [] && WellChosen(policy, ordered, [], 0)
  {
  }

  lemma ChosenRuns(policy: AuditPolicy, ordered: seq<AuditFile>) returns (runs: seq<Run>)
    requires policy.maxFilesPerBatch >= 2
    ensures Take(Parts(ordered, AllRuns(policy, ordered)), policy.maxBatches) == Parts(ordered, runs)
    ensures |runs| <= if policy.maxBatches > 0 then policy.maxBatches else 0
    ensures WellChosen(policy, ordered, runs, 0)
  {
    var greedy := GreedyRuns(policy.Budget(), SegmentSize(ordered), |ordered|);
    GreedyShape(policy.Budget(), SegmentSize(ordered), 0, 0, |ordered|);
    MultipleWellChosen(policy, ordered, greedy, 0, 0);
    runs := Take(AllRuns(policy, ordered), policy.maxBatches);
    PrefixWellChosen(policy, ordered, AllRuns(policy, ordered), |runs|, 0);
    PartsOfPrefix(ordered, AllRuns(policy, ordered), |runs|);
  }

  // Files from i on were skipped so far and the walk is at file j.
  lemma {:induction false} MultipleWellChosen(
    policy: AuditPolicy, ordered: seq<AuditFile>, greedy: seq<Run>, i: nat, j: nat)
    requires policy.maxFilesPerBatch >= 2 && i <= j <= |ordered|
    requires Cutting(greedy, j, |ordered|)
    requires AllAdmissible(policy.Budget(), SegmentSize(ordered), greedy)
    requires Maximal(policy.Budget(), SegmentSize(ordered), greedy, |ordered|)
    requires forall f: nat | i <= f < j :: f + 1 < |ordered| ==> RightlySkipped(policy, ordered, f)
    ensures WellChosen(policy, ordered, Multiple(greedy), i)
    decreases |greedy|
  {
    if greedy != [] {
      var r := greedy[0];
      assert r in greedy;
      if r.from + 1 < r.to {
        RunFits(policy, ordered, r);
        MultipleWellChosen(policy, ordered, greedy[1..], r.to, r.to);
        assert Multiple(greedy) == [r] + Multiple(greedy[1..]);
      } else {
        if r.to < |ordered| {
          SingleSkipped(policy, ordered, r.from);
        }
        MultipleWellChosen(policy, ordered, greedy[1..], i, r.to);
      }
    }
  }

  lemma RunFits(policy: AuditPolicy, ordered: seq<AuditFile>, r: Run)
    requires r.from + 1 < r.to <= |ordered| && Admissible(policy.Budget(), SegmentSize(ordered), r)
    ensures FitsOneBatch(policy, ordered, r)
  {
    assert Joins(policy.Budget(), SegmentSize(ordered), r.from, r.to - 1);
  }

  lemma SingleSkipped(policy: AuditPolicy, ordered: seq<AuditFile>, i: nat)
    requires policy.maxFilesPerBatch >= 2 && i + 1 < |ordered|
    requires !Joins(policy.Budget(), SegmentSize(ordered), i, i + 1)
    ensures RightlySkipped(policy, ordered, i)
  {
    assert SizeIn(ordered, i, i + 1) == SizeIn(ordered, i, i) + ordered[i].size;
    assert SizeIn(ordered, i, i + 2) == SizeIn(ordered, i, i + 1) + ordered[i + 1].size;
  }

  lemma {:induction false} PrefixWellChosen(
    policy: AuditPolicy, ordered: seq<AuditFile>, runs: seq<Run>, k: nat, i: nat)
    requires k <= |runs| && WellChosen(policy, ordered, runs, i)
    ensures WellChosen(policy, ordered, runs[..k], i)
    decreases k
  {
    if k > 0 {
      assert runs[..k][1..] == runs[1..][..k - 1];
      PrefixWellChosen(policy, ordered, runs[1..], k - 1, runs[0].to);
    }
  }

  lemma {:induction false} PartsOfPrefix(files: seq<AuditFile>, runs: seq<Run>, k: nat)
    requires k <= |runs|
    ensures Parts(files, runs[..k]) == Parts(files, runs)[..k]
    decreases k
  {
    if k > 0 {
      assert runs[..k][1..] == runs[1..][..k - 1];
      PartsOfPrefix(files, runs[1..], k - 1);
    }
  }
}
