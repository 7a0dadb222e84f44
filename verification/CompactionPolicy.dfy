// The greedy multi-budget batch planner (retikon_core/compaction/policy.py).

module CompactionPolicies {
  import opened CompactionTypes
  import opened Greedy
  import opened Sequences

  datatype CompactionPolicy = CompactionPolicy(targetMinBytes: int, targetMaxBytes: int, maxGroupsPerBatch: int)
  {
    function Budget(): Budget {
      Greedy.Budget(targetMinBytes, targetMaxBytes, maxGroupsPerBatch)
    }
  }

  // The largest of the byte totals of the first c kinds, over the groups [i, j).
  function MaxIn(kinds: seq<string>, c: nat, groups: seq<CompactionGroup>, i: nat, j: nat): int
    requires 0 < c <= |kinds| && j <= |groups|
  {
    var last := BytesIn(groups, kinds[c - 1], i, j);
    if c == 1 then last
    else
      var rest := MaxIn(kinds, c - 1, groups, i, j);
      if last >= rest then last else rest
  }

  // max(totals.values()) over the first c planned kinds.
  function MaxValue(kinds: seq<string>, c: nat, totals: map<string, int>): int
    requires 0 < c <= |kinds| && forall k | k in kinds :: k in totals
  {
    var last := totals[kinds[c - 1]];
    if c == 1 then last
    else
      var rest := MaxValue(kinds, c - 1, totals);
      if last >= rest then last else rest
  }

  // What a run of consecutive groups weighs: the largest of its per-kind byte totals.
  function SegmentBytes(kinds: seq<string>, groups: seq<CompactionGroup>): Weight
    requires kinds != []
  {
    (i: nat, j: nat) => if j <= |groups| then MaxIn(kinds, |kinds|, groups, i, j) else 0
  }

  function MakeBatch(kinds: seq<string>, current: seq<CompactionGroup>): CompactionBatch {
    if current == [] then CompactionBatch("", false, kinds, [])
    else CompactionBatch(current[0].entityType, current[0].isEdge, kinds, current)
  }

  function MakeBatches(
    kinds: seq<string>, groups: seq<CompactionGroup>, runs: seq<Run>): (batches: seq<CompactionBatch>)
    ensures |batches| == |runs|
  {
    if runs == [] then []
    else [MakeBatch(kinds, Slice(groups, runs[0].from, runs[0].to))] + MakeBatches(kinds, groups, runs[1..])
  }

  function PlanRuns(policy: CompactionPolicy, kinds: seq<string>, groups: seq<CompactionGroup>): seq<Run>
    requires kinds != []
  {
    GreedyRuns(policy.Budget(), SegmentBytes(kinds, groups), |groups|)
  }

  // The batches are exactly the greedy segments of the input, in order.
  function PlannedBatches(
    policy: CompactionPolicy, kinds: seq<string>, groups: seq<CompactionGroup>): seq<CompactionBatch>
  {
    if kinds == [] then [] else MakeBatches(kinds, groups, PlanRuns(policy, kinds, groups))
  }

  // What is still to be planned when the loop reached group m with [start, m) as current groups.
  function Rest(
    b: Budget, w: Weight, kinds: seq<string>, groups: seq<CompactionGroup>, start: nat, m: nat): seq<CompactionBatch>
    requires start <= m <= |groups|
  {
    MakeBatches(kinds, groups, GreedyFrom(b, w, start, m, |groups|))
  }

  // State of the planning loop at group m: the current groups [start, m) with their running totals,
  // the batches made so far, and greedy's way of going on from there.
  ghost predicate Planning(
    policy: CompactionPolicy, kinds: seq<string>, groups: seq<CompactionGroup>, start: nat, m: nat,
    current: seq<CompactionGroup>, running: map<string, int>, batches: seq<CompactionBatch>, all: seq<CompactionBatch>)
  {
    && kinds != [] && start <= m <= |groups| && current == groups[start..m]
    && Running(kinds, groups, start, m, running)
    && all == batches + Rest(policy.Budget(), SegmentBytes(kinds, groups), kinds, groups, start, m)
  }

  // May group m join the current groups [start, m)?
  predicate GroupJoins(policy: CompactionPolicy, kinds: seq<string>, groups: seq<CompactionGroup>, start: nat, m: nat)
    requires kinds != [] && m < |groups|
  {
    && m - start < policy.maxGroupsPerBatch
    && MaxIn(kinds, |kinds|, groups, start, m) < policy.targetMinBytes
    && MaxIn(kinds, |kinds|, groups, start, m + 1) <= policy.targetMaxBytes
  }

  lemma TakeGroup(
    policy: CompactionPolicy, kinds: seq<string>, groups: seq<CompactionGroup>, start: nat, m: nat,
    current: seq<CompactionGroup>, running: map<string, int>, batches: seq<CompactionBatch>, all: seq<CompactionBatch>)
    requires Planning(policy, kinds, groups, start, m, current, running, batches, all) && m < |groups|
    requires current == [] || GroupJoins(policy, kinds, groups, start, m)
    ensures Planning(
      policy, kinds, groups, start, m + 1, current + [groups[m]], Project(running, groups[m]), batches, all)
  {
    assert start < m ==> Joins(policy.Budget(), SegmentBytes(kinds, groups), start, m);
    RestWith(policy.Budget(), SegmentBytes(kinds, groups), kinds, groups, start, m);
    RunningWith(kinds, groups, start, m, running);
  }

  lemma RestWith(b: Budget, w: Weight, kinds: seq<string>, groups: seq<CompactionGroup>, start: nat, m: nat)
    requires start <= m < |groups| && (start == m || Joins(b, w, start, m))
    ensures Rest(b, w, kinds, groups, start, m) == Rest(b, w, kinds, groups, start, m + 1)
  {
  }

  lemma RestAfter(b: Budget, w: Weight, kinds: seq<string>, groups: seq<CompactionGroup>, start: nat, m: nat)
    requires start < m <= |groups| && (m == |groups| || !Joins(b, w, start, m))
    ensures Rest(b, w, kinds, groups, start, m) ==
      [MakeBatch(kinds, groups[start..m])] + Rest(b, w, kinds, groups, m, m)
  {
  }

  lemma RunningWith(kinds: seq<string>, groups: seq<CompactionGroup>, start: nat, m: nat, running: map<string, int>)
    requires start <= m < |groups| && Running(kinds, groups, start, m, running)
    ensures Running(kinds, groups, start, m + 1, Project(running, groups[m]))
  {
  }

  lemma FlushBatch(
    policy: CompactionPolicy, kinds: seq<string>, groups: seq<CompactionGroup>, start: nat, m: nat,
    current: seq<CompactionGroup>, running: map<string, int>, batches: seq<CompactionBatch>, all: seq<CompactionBatch>)
    requires Planning(policy, kinds, groups, start, m, current, running, batches, all) && current != []
    requires m == |groups| || !GroupJoins(policy, kinds, groups, start, m)
    ensures Planning(policy, kinds, groups, m, m, [], Zeros(kinds), batches + [MakeBatch(kinds, current)], all)
  {
    RestAfter(policy.Budget(), SegmentBytes(kinds, groups), kinds, groups, start, m);
  }

  // What the tests of the loop decide.
  lemma PlanDecides(
    policy: CompactionPolicy, kinds: seq<string>, groups: seq<CompactionGroup>, start: nat, m: nat,
    current: seq<CompactionGroup>, running: map<string, int>, batches: seq<CompactionBatch>, all: seq<CompactionBatch>)
    requires Planning(policy, kinds, groups, start, m, current, running, batches, all) && m < |groups|
    requires current != [] ==> MaxIn(kinds, |kinds|, groups, start, m) < policy.targetMinBytes
    ensures forall k | k in kinds :: k in Project(running, groups[m])
    ensures var projectedMax := MaxValue(kinds, |kinds|, Project(running, groups[m]));
      && projectedMax == MaxIn(kinds, |kinds|, groups, start, m + 1)
      && (current != [] ==>
            (GroupJoins(policy, kinds, groups, start, m) <==>
              !(projectedMax > policy.targetMaxBytes || |current| >= policy.maxGroupsPerBatch)))
  {
    ProjectedMax(kinds, groups, start, m, running);
  }

  method Plan(policy: CompactionPolicy, groups: seq<CompactionGroup>, fileKinds: seq<string>)
    returns (batches: seq<CompactionBatch>)
    ensures batches == PlannedBatches(policy, fileKinds, groups)
  {
    batches := [];
    if groups == [] {
      return;
    }
    if fileKinds == [] {
      return;
    }
    hide Planning, MaxIn, MaxValue, PlannedBatches, Project, Zeros, MakeBatch, GroupJoins;
    var current: seq<CompactionGroup> := [];
    var running := Zeros(fileKinds);
    PlanStart(policy, fileKinds, groups);
    ghost var start: nat, all := 0, PlannedBatches(policy, fileKinds, groups);
    for m := 0 to |groups|
      invariant start <= m && Planning(policy, fileKinds, groups, start, m, current, running, batches, all)
      invariant current != [] ==> MaxIn(fileKinds, |fileKinds|, groups, start, m) < policy.targetMinBytes
    {
      var group := groups[m];
      var projected := Project(running, group);
      PlanDecides(policy, fileKinds, groups, start, m, current, running, batches, all);
      var projectedMax := MaxValue(fileKinds, |fileKinds|, projected);
      if current != [] && (projectedMax > policy.targetMaxBytes || |current| >= policy.maxGroupsPerBatch) {
        FlushBatch(policy, fileKinds, groups, start, m, current, running, batches, all);
        batches := batches + [MakeBatch(fileKinds, current)];
        start, current, running := m, [], Zeros(fileKinds);
        projected := Project(running, group);
        PlanDecides(policy, fileKinds, groups, start, m, current, running, batches, all);
        projectedMax := MaxValue(fileKinds, |fileKinds|, projected);
      }
      TakeGroup(policy, fileKinds, groups, start, m, current, running, batches, all);
      current := current + [group];
      running := projected;
      if projectedMax >= policy.targetMinBytes {
        FullEnough(policy, fileKinds, groups, start, m + 1);
        FlushBatch(policy, fileKinds, groups, start, m + 1, current, running, batches, all);
        batches := batches + [MakeBatch(fileKinds, current)];
        start, current, running := m + 1, [], Zeros(fileKinds);
      }
    }
    if current != [] {
      FlushBatch(policy, fileKinds, groups, start, |groups|, current, running, batches, all);
      batches := batches + [MakeBatch(fileKinds, current)];
      start, current, running := |groups|, [], Zeros(fileKinds);
    }
    PlanEnd(policy, fileKinds, groups, start, current, running, batches, all);
  }

  lemma FullEnough(policy: CompactionPolicy, kinds: seq<string>, groups: seq<CompactionGroup>, start: nat, m: nat)
    requires kinds != [] && m <= |groups| && MaxIn(kinds, |kinds|, groups, start, m) >= policy.targetMinBytes
    ensures m == |groups| || !GroupJoins(policy, kinds, groups, start, m)
  {
  }

  lemma PlanStart(policy: CompactionPolicy, kinds: seq<string>, groups: seq<CompactionGroup>)
    requires kinds != []
    ensures Planning(policy, kinds, groups, 0, 0, [], Zeros(kinds), [], PlannedBatches(policy, kinds, groups))
  {
  }

  lemma PlanEnd(
    policy: CompactionPolicy, kinds: seq<string>, groups: seq<CompactionGroup>, start: nat,
    current: seq<CompactionGroup>, running: map<string, int>, batches: seq<CompactionBatch>, all: seq<CompactionBatch>)
    requires Planning(policy, kinds, groups, start, |groups|, current, running, batches, all) && current == []
    ensures batches == all
  {
  }

  function Zeros(kinds: seq<string>): map<string, int> {
    map k | k in kinds :: 0
  }

  function Project(running: map<string, int>, group: CompactionGroup): map<string, int> {
    map k | k in running :: running[k] + group.Bytes(k)
  }

  // The running totals are those of the current groups [start, m).
  ghost predicate Running(
    kinds: seq<string>, groups: seq<CompactionGroup>, start: nat, m: nat, running: map<string, int>)
    requires m <= |groups|
  {
    && running.Keys == (set k | k in kinds)
    && forall k | k in kinds :: running[k] == BytesIn(groups, k, start, m)
  }

  lemma ProjectedMax(kinds: seq<string>, groups: seq<CompactionGroup>, start: nat, m: nat, running: map<string, int>)
    requires kinds != [] && start <= m < |groups| && Running(kinds, groups, start, m, running)
    ensures forall k | k in kinds :: k in Project(running, groups[m])
    ensures MaxValue(kinds, |kinds|, Project(running, groups[m])) == MaxIn(kinds, |kinds|, groups, start, m + 1)
  {
    RunningWith(kinds, groups, start, m, running);
    MaxValueIsMaxIn(kinds, |kinds|, groups, start, m + 1, Project(running, groups[m]));
  }

  lemma MaxValueIsMaxIn(
    kinds: seq<string>, c: nat, groups: seq<CompactionGroup>, i: nat, j: nat, totals: map<string, int>)
    requires 0 < c <= |kinds| && j <= |groups| && Running(kinds, groups, i, j, totals)
    ensures MaxValue(kinds, c, totals) == MaxIn(kinds, c, groups, i, j)
  {
  }

  // ---------------------------------------------------------------- what a plan guarantees

  function Concat(batches: seq<CompactionBatch>): seq<CompactionGroup> {
    if batches == [] then [] else batches[0].groups + Concat(batches[1..])
  }

  lemma {:induction false} ConcatMembers(batches: seq<CompactionBatch>)
    ensures forall g :: g in Concat(batches) <==> exists b :: b in batches && g in b.groups
  {
    if batches != [] {
      ConcatMembers(batches[1..]);
      assert batches == [batches[0]] + batches[1..];
    }
  }

  // A batch the budgets allow: one group, or a few within the cap and, on every kind, the byte limit.
  ghost predicate WithinBudget(policy: CompactionPolicy, kinds: seq<string>, part: seq<CompactionGroup>) {
    && part != []
    && (|part| > 1 ==>
        && |part| <= policy.maxGroupsPerBatch
        && forall k | k in kinds :: KindBytes(part, k) <= policy.targetMaxBytes)
  }

  // A batch only ends because it reached the target size or could not have taken the next group.
  ghost predicate HadToEnd(
    policy: CompactionPolicy, kinds: seq<string>, batch: CompactionBatch, next: CompactionBatch)
  {
    || (exists k :: k in kinds && KindBytes(batch.groups, k) >= policy.targetMinBytes)
    || (next.groups != [] && !WithinBudget(policy, kinds, batch.groups + [next.groups[0]]))
  }

  ghost predicate Sound(policy: CompactionPolicy, kinds: seq<string>, batches: seq<CompactionBatch>) {
    && (forall b | b in batches :: WithinBudget(policy, kinds, b.groups) && b == MakeBatch(kinds, b.groups))
    && (forall k | 0 <= k < |batches| - 1 :: HadToEnd(policy, kinds, batches[k], batches[k + 1]))
  }

  // The batches concatenate to the input, each is within budget and carries the planned kinds, and
  // none ended early.
  lemma PlanPartitions(policy: CompactionPolicy, kinds: seq<string>, groups: seq<CompactionGroup>)
    requires kinds != []
    ensures Concat(PlannedBatches(policy, kinds, groups)) == groups
    ensures Sound(policy, kinds, PlannedBatches(policy, kinds, groups))
    ensures forall b | b in PlannedBatches(policy, kinds, groups) && |b.groups| > 1 ::
      && |b.groups| <= policy.maxGroupsPerBatch
      && forall k | k in kinds :: Sum(SizesOf(b.groups, k)) <= policy.targetMaxBytes
  {
    GreedyShape(policy.Budget(), SegmentBytes(kinds, groups), 0, 0, |groups|);
    RunsPartition(policy, kinds, groups, PlanRuns(policy, kinds, groups), 0);
    assert groups[0..] == groups;
    forall b, k | b in PlannedBatches(policy, kinds, groups)
      ensures KindBytes(b.groups, k) == Sum(SizesOf(b.groups, k))
    {
      KindBytesIsSum(b.groups, k);
    }
  }

  lemma {:induction false} RunsPartition(
    policy: CompactionPolicy, kinds: seq<string>, groups: seq<CompactionGroup>, runs: seq<Run>, i: nat)
    requires kinds != [] && i <= |groups| && Cutting(runs, i, |groups|)
    requires AllAdmissible(policy.Budget(), SegmentBytes(kinds, groups), runs)
    requires Maximal(policy.Budget(), SegmentBytes(kinds, groups), runs, |groups|)
    ensures Concat(MakeBatches(kinds, groups, runs)) == groups[i..]
    ensures Sound(policy, kinds, MakeBatches(kinds, groups, runs))
    decreases |runs|
  {
    hide Sound, AllAdmissible, Maximal, KindBytes;
    if runs == [] {
      NothingIsSound(policy, kinds);
    } else {
      RestAsWell(policy, kinds, groups, runs);
      RunsPartition(policy, kinds, groups, runs[1..], runs[0].to);
      assert groups[i..] == groups[i..runs[0].to] + groups[runs[0].to..];
      FirstIsSound(policy, kinds, groups, runs, i);
    }
  }

  lemma NothingIsSound(policy: CompactionPolicy, kinds: seq<string>)
    ensures Sound(policy, kinds, [])
  {
  }

  lemma RestAsWell(
    policy: CompactionPolicy, kinds: seq<string>, groups: seq<CompactionGroup>, runs: seq<Run>)
    requires kinds != [] && runs != []
    requires AllAdmissible(policy.Budget(), SegmentBytes(kinds, groups), runs)
    requires Maximal(policy.Budget(), SegmentBytes(kinds, groups), runs, |groups|)
    ensures AllAdmissible(policy.Budget(), SegmentBytes(kinds, groups), runs[1..])
    ensures Maximal(policy.Budget(), SegmentBytes(kinds, groups), runs[1..], |groups|)
  {
  }

  lemma FirstIsSound(
    policy: CompactionPolicy, kinds: seq<string>, groups: seq<CompactionGroup>, runs: seq<Run>, i: nat)
    requires kinds != [] && runs != [] && Cutting(runs, i, |groups|)
    requires AllAdmissible(policy.Budget(), SegmentBytes(kinds, groups), runs)
    requires Maximal(policy.Budget(), SegmentBytes(kinds, groups), runs, |groups|)
    requires Sound(policy, kinds, MakeBatches(kinds, groups, runs[1..]))
    ensures Sound(policy, kinds, MakeBatches(kinds, groups, runs))
  {
    hide WithinBudget, HadToEnd, Admissible, Joins;
    var r, rest := runs[0], MakeBatches(kinds, groups, runs[1..]);
    assert r in runs;
    SegmentWithinBudget(policy, kinds, groups, i, r.to);
    if rest != [] {
      SegmentHadToEnd(policy, kinds, groups, i, r.to, MakeBatch(kinds, groups[i..r.to]), rest[0]);
    }
  }

  // The weight of a segment is the byte total of one of the kinds, and no kind's total exceeds it.
  lemma {:induction false} HeaviestKind(kinds: seq<string>, c: nat, groups: seq<CompactionGroup>, i: nat, j: nat)
    returns (k: string)
    requires 0 < c <= |kinds| && i <= j <= |groups|
    ensures k in kinds && MaxIn(kinds, c, groups, i, j) == BytesIn(groups, k, i, j) == KindBytes(groups[i..j], k)
    ensures forall d | 0 <= d < c :: BytesIn(groups, kinds[d], i, j) <= MaxIn(kinds, c, groups, i, j)
    ensures forall d | 0 <= d < c :: KindBytes(groups[i..j], kinds[d]) <= MaxIn(kinds, c, groups, i, j)
  {
    k := kinds[c - 1];
    BytesInSlice(groups, k, i, j, j);
    if c > 1 {
      var rest := HeaviestKind(kinds, c - 1, groups, i, j);
      if BytesIn(groups, rest, i, j) > BytesIn(groups, k, i, j) {
        k := rest;
      }
    }
  }

  lemma SegmentWithinBudget(policy: CompactionPolicy, kinds: seq<string>, groups: seq<CompactionGroup>, i: nat, j: nat)
    requires kinds != [] && j <= |groups|
    requires Admissible(policy.Budget(), SegmentBytes(kinds, groups), Run(i, j))
    ensures WithinBudget(policy, kinds, groups[i..j])
  {
    if j - i > 1 {
      assert Joins(policy.Budget(), SegmentBytes(kinds, groups), i, j - 1);
      var _ := HeaviestKind(kinds, |kinds|, groups, i, j);
    }
  }

  lemma SegmentHadToEnd(
    policy: CompactionPolicy, kinds: seq<string>, groups: seq<CompactionGroup>, i: nat, j: nat,
    batch: CompactionBatch, next: CompactionBatch)
    requires kinds != [] && i < j < |groups| && batch.groups == groups[i..j]
    requires next.groups != [] && next.groups[0] == groups[j]
    requires !Joins(policy.Budget(), SegmentBytes(kinds, groups), i, j)
    ensures HadToEnd(policy, kinds, batch, next)
  {
    var k := HeaviestKind(kinds, |kinds|, groups, i, j);
    var l := HeaviestKind(kinds, |kinds|, groups, i, j + 1);
    assert batch.groups + [next.groups[0]] == groups[i..j + 1];
  }

  // ---------------------------------------------------------------- optimality

  ghost predicate NonNegative(kinds: seq<string>, groups: seq<CompactionGroup>) {
    forall g, k | g in groups && k in kinds :: g.Bytes(k) >= 0
  }

  // Any other way of cutting the groups, in order, into batches the budgets allow.
  ghost predicate LegalRuns(policy: CompactionPolicy, kinds: seq<string>, groups: seq<CompactionGroup>, p: seq<Run>) {
    && Cutting(p, 0, |groups|)
    && forall r | r in p :: WithinBudget(policy, kinds, Slice(groups, r.from, r.to))
  }

  lemma {:induction false} BytesInNonNegative(
    kinds: seq<string>, groups: seq<CompactionGroup>, kind: string, i: nat, j: nat)
    requires NonNegative(kinds, groups) && kind in kinds && i <= j <= |groups|
    ensures BytesIn(groups, kind, i, j) >= 0
  {
    if i < j {
      BytesInNonNegative(kinds, groups, kind, i, j - 1);
      assert groups[j - 1] in groups;
    }
  }

  lemma WeightGrows(kinds: seq<string>, groups: seq<CompactionGroup>, i: nat, i': nat, j': nat, j: nat)
    requires kinds != [] && NonNegative(kinds, groups) && i <= i' <= j' <= j <= |groups|
    ensures MaxIn(kinds, |kinds|, groups, i', j') <= MaxIn(kinds, |kinds|, groups, i, j)
  {
    var k := HeaviestKind(kinds, |kinds|, groups, i', j');
    var _ := HeaviestKind(kinds, |kinds|, groups, i, j);
    BytesInSplit(groups, k, i, i', j);
    BytesInSplit(groups, k, i', j', j);
    BytesInNonNegative(kinds, groups, k, i, i');
    BytesInNonNegative(kinds, groups, k, j', j);
  }

  lemma SegmentBytesMonotone(kinds: seq<string>, groups: seq<CompactionGroup>)
    requires kinds != [] && NonNegative(kinds, groups)
    ensures Monotone(SegmentBytes(kinds, groups), |groups|)
  {
    var w := SegmentBytes(kinds, groups);
    forall i: nat, i': nat, j: nat, j': nat | i <= i' <= j' <= j <= |groups|
      ensures w(i', j') <= w(i, j)
    {
      WeightGrows(kinds, groups, i, i', j', j);
    }
  }

  // Where early flushing cannot separate what the byte limit would let together.
  predicate FlushesLate(policy: CompactionPolicy) {
    policy.targetMinBytes > policy.targetMaxBytes || policy.maxGroupsPerBatch < 2 || policy.targetMaxBytes < 0
  }

  // The fewest batches: no legal cutting of the same groups has fewer.
  lemma PlanIsOptimal(policy: CompactionPolicy, kinds: seq<string>, groups: seq<CompactionGroup>, p: seq<Run>)
    requires kinds != [] && NonNegative(kinds, groups)
    requires FlushesLate(policy)
    requires LegalRuns(policy, kinds, groups, p)
    ensures |PlannedBatches(policy, kinds, groups)| <= |p|
  {
    SegmentBytesMonotone(kinds, groups);
    CuttingBounds(p, 0, |groups|);
    forall r | r in p
      ensures Admissible(policy.Budget(), SegmentBytes(kinds, groups), r)
    {
      LegalIsAdmissible(policy, kinds, groups, r);
    }
    GreedyIsOptimal(policy.Budget(), SegmentBytes(kinds, groups), p, |groups|);
  }

  lemma LegalIsAdmissible(policy: CompactionPolicy, kinds: seq<string>, groups: seq<CompactionGroup>, r: Run)
    requires kinds != [] && NonNegative(kinds, groups) && FlushesLate(policy)
    requires r.from < r.to <= |groups| && WithinBudget(policy, kinds, Slice(groups, r.from, r.to))
    ensures Admissible(policy.Budget(), SegmentBytes(kinds, groups), r)
  {
    var k := HeaviestKind(kinds, |kinds|, groups, r.from, r.to);
    BytesInNonNegative(kinds, groups, k, r.from, r.to);
    forall m: nat | r.from < m < r.to
      ensures Joins(policy.Budget(), SegmentBytes(kinds, groups), r.from, m)
    {
      WeightGrows(kinds, groups, r.from, r.from, m, m + 1);
      WeightGrows(kinds, groups, r.from, r.from, m + 1, r.to);
    }
  }

  lemma {:induction false} CuttingBounds(runs: seq<Run>, i: nat, n: nat)
    requires Cutting(runs, i, n)
    ensures forall r | r in runs :: i <= r.from < r.to <= n
    decreases |runs|
  {
    if runs != [] {
      CuttingBounds(runs[1..], runs[0].to, n);
    }
  }

  ghost predicate AlwaysOptimal(policy: CompactionPolicy) {
    forall kinds, groups, p |
      kinds != [] && NonNegative(kinds, groups) && LegalRuns(policy, kinds, groups, p) ::
      |PlannedBatches(policy, kinds, groups)| <= |p|
  }

  // A policy never uses more batches than necessary exactly when it flushes late.
  lemma OptimalExactlyWhenFlushingLate(policy: CompactionPolicy)
    ensures AlwaysOptimal(policy) <==> FlushesLate(policy)
  {
    if FlushesLate(policy) {
      forall kinds, groups, p |
        kinds != [] && NonNegative(kinds, groups) && LegalRuns(policy, kinds, groups, p)
        ensures |PlannedBatches(policy, kinds, groups)| <= |p|
      {
        PlanIsOptimal(policy, kinds, groups, p);
      }
    } else {
      EarlyFlushExample(policy);
    }
  }

  // Two groups that fit together but are written to two batches.
  lemma EarlyFlushExample(policy: CompactionPolicy)
    requires !FlushesLate(policy)
    ensures !AlwaysOptimal(policy)
  {
    var kinds := ["core"];
    var big := if policy.targetMinBytes > 0 then policy.targetMinBytes else 0;
    var g := CompactionGroup("DocChunk", false, "run-1", map["core" := ManifestFile([], 0, big)]);
    var h := CompactionGroup("DocChunk", false, "run-2", map["core" := ManifestFile([], 0, 0)]);
    var groups := [g, h];
    var b, w := policy.Budget(), SegmentBytes(kinds, groups);
    assert BytesIn(groups, "core", 0, 1) == BytesIn(groups, "core", 0, 0) + big;
    assert !Joins(b, w, 0, 1);
    assert GreedyFrom(b, w, 1, 1, 2) == GreedyFrom(b, w, 1, 2, 2) == [Run(1, 2)];
    assert GreedyFrom(b, w, 0, 0, 2) == GreedyFrom(b, w, 0, 1, 2) == [Run(0, 1)] + [Run(1, 2)];
    var p := [Run(0, 2)];
    assert KindBytes(groups, "core") == BytesIn(groups, "core", 0, 1) + 0 == big;
    assert Slice(groups, 0, 2) == groups && LegalRuns(policy, kinds, groups, p);
  }

  // ---------------------------------------------------------------- how many batches

  // Bytes of all kinds together in the groups [i, j).
  function TotalIn(kinds: seq<string>, c: nat, groups: seq<CompactionGroup>, i: nat, j: nat): int
    requires c <= |kinds| && j <= |groups|
  {
    if c == 0 then 0 else TotalIn(kinds, c - 1, groups, i, j) + BytesIn(groups, kinds[c - 1], i, j)
  }

  lemma {:induction false} TotalInSplit(
    kinds: seq<string>, c: nat, groups: seq<CompactionGroup>, i: nat, k: nat, j: nat)
    requires c <= |kinds| && i <= k <= j <= |groups|
    ensures TotalIn(kinds, c, groups, i, j) == TotalIn(kinds, c, groups, i, k) + TotalIn(kinds, c, groups, k, j)
  {
    if c > 0 {
      TotalInSplit(kinds, c - 1, groups, i, k, j);
      BytesInSplit(groups, kinds[c - 1], i, k, j);
    }
  }

  lemma {:induction false} TotalDominates(kinds: seq<string>, c: nat, groups: seq<CompactionGroup>, i: nat, j: nat)
    requires NonNegative(kinds, groups) && c <= |kinds| && i <= j <= |groups|
    ensures TotalIn(kinds, c, groups, i, j) >= 0
    ensures c > 0 ==> MaxIn(kinds, c, groups, i, j) <= TotalIn(kinds, c, groups, i, j)
  {
    if c > 0 {
      TotalDominates(kinds, c - 1, groups, i, j);
      BytesInNonNegative(kinds, groups, kinds[c - 1], i, j);
    }
  }

  // Of every two neighbouring batches, either the first is full by count or the two together
  // hold the target number of bytes.
  lemma {:induction false} PairBound(
    policy: CompactionPolicy, kinds: seq<string>, groups: seq<CompactionGroup>, runs: seq<Run>, i: nat)
    returns (byBytes: nat, byCount: nat)
    requires kinds != [] && NonNegative(kinds, groups) && i <= |groups|
    requires 0 < policy.targetMinBytes <= policy.targetMaxBytes && policy.maxGroupsPerBatch >= 1
    requires Cutting(runs, i, |groups|)
    requires Maximal(policy.Budget(), SegmentBytes(kinds, groups), runs, |groups|)
    ensures |runs| / 2 == byBytes + byCount
    ensures byBytes * policy.targetMinBytes <= TotalIn(kinds, |kinds|, groups, i, |groups|)
    ensures byCount * policy.maxGroupsPerBatch <= |groups| - i
    decreases |runs|
  {
    if |runs| < 2 {
      byBytes, byCount := 0, 0;
      TotalDominates(kinds, |kinds|, groups, i, |groups|);
    } else {
      var j, l := runs[0].to, runs[1].to;
      assert runs[0] in runs && Cutting(runs[1..], j, |groups|) && runs[2..] == runs[1..][1..];
      byBytes, byCount := PairBound(policy, kinds, groups, runs[2..], l);
      PairIsFull(policy, kinds, groups, i, j, l);
      TotalInSplit(kinds, |kinds|, groups, i, l, |groups|);
      if j - i >= policy.maxGroupsPerBatch {
        MulNext(byCount, policy.maxGroupsPerBatch);
        byCount := byCount + 1;
      } else {
        MulNext(byBytes, policy.targetMinBytes);
        byBytes := byBytes + 1;
      }
    }
  }

  lemma PairIsFull(policy: CompactionPolicy, kinds: seq<string>, groups: seq<CompactionGroup>, i: nat, j: nat, l: nat)
    requires kinds != [] && NonNegative(kinds, groups) && i < j < l <= |groups|
    requires policy.targetMinBytes <= policy.targetMaxBytes
    requires !Joins(policy.Budget(), SegmentBytes(kinds, groups), i, j)
    ensures TotalIn(kinds, |kinds|, groups, i, l) >= 0
    ensures j - i >= policy.maxGroupsPerBatch || TotalIn(kinds, |kinds|, groups, i, l) >= policy.targetMinBytes
  {
    WeightGrows(kinds, groups, i, i, j, l);
    WeightGrows(kinds, groups, i, i, j + 1, l);
    TotalDominates(kinds, |kinds|, groups, i, l);
  }

  // Half the batches, at least, carry their weight in bytes or in groups.
  lemma PlanCountBound(policy: CompactionPolicy, kinds: seq<string>, groups: seq<CompactionGroup>)
    requires kinds != [] && NonNegative(kinds, groups)
    requires 0 < policy.targetMinBytes <= policy.targetMaxBytes && policy.maxGroupsPerBatch >= 1
    ensures |PlannedBatches(policy, kinds, groups)| / 2
      <= TotalIn(kinds, |kinds|, groups, 0, |groups|) / policy.targetMinBytes + |groups| / policy.maxGroupsPerBatch
  {
    GreedyShape(policy.Budget(), SegmentBytes(kinds, groups), 0, 0, |groups|);
    var byBytes, byCount := PairBound(policy, kinds, groups, PlanRuns(policy, kinds, groups), 0);
    DivisionBound(byBytes, policy.targetMinBytes, TotalIn(kinds, |kinds|, groups, 0, |groups|));
    DivisionBound(byCount, policy.maxGroupsPerBatch, |groups|);
  }

  lemma DivisionBound(q: int, d: int, x: int)
    requires d > 0 && q * d <= x
    ensures q <= x / d
  {
    MulLess(q, x / d + 1, d);
  }

  lemma MulNext(a: int, d: int)
    ensures (a + 1) * d == a * d + d
  {
  }

  lemma MulLess(a: int, b: int, d: int)
    requires d > 0 && a * d < b * d
    ensures a < b
  {
    assert (b - a) * d > 0;
  }
}
