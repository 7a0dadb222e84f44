// What a compaction run is going to do (retikon_core/compaction/runner.py): manifests are grouped by run, the
// groups of each entity that are complete are put into batches, and batches are done kind by kind.

module CompactionPlanning {
  import opened CompactionFate
  import opened CompactionPolicies
  import opened CompactionTypes
  import opened GraphStorage
  import opened Optionals
  import opened Sequences
  import opened StableSort
  import opened Tables

  // ---------------------------------------------------------------- grouping

  datatype Entry = Entry(runId: string, file: ManifestFile)

  datatype RunKey = RunKey(isEdge: bool, entityType: string, runId: string)

  type GroupTable = map<RunKey, map<string, ManifestFile>>

  function Tagged(m: ManifestInfo): seq<Entry> {
    seq(|m.files|, i requires 0 <= i < |m.files| => Entry(m.runId, m.files[i]))
  }

  // All files the manifests mention, in order.
  function Entries(manifests: seq<ManifestInfo>): seq<Entry> {
    if manifests == [] then [] else Entries(manifests[..|manifests| - 1]) + Tagged(manifests[|manifests| - 1])
  }

  predicate IsFor(e: Entry, key: RunKey, kind: string) {
    e.runId == key.runId && ParseGraphUri(e.file.uri) == Some(GraphKey(key.isEdge, key.entityType, kind))
  }

  // The last file mentioned for a run, entity and kind.
  function LastFile(entries: seq<Entry>, key: RunKey, kind: string): Option<ManifestFile> {
    if entries == [] then None
    else if IsFor(entries[|entries| - 1], key, kind) then Some(entries[|entries| - 1].file)
    else LastFile(entries[..|entries| - 1], key, kind)
  }

  function Lookup(groups: GroupTable, key: RunKey, kind: string): Option<ManifestFile> {
    if key in groups && kind in groups[key] then Some(groups[key][kind]) else None
  }

  function KeyOf(g: CompactionGroup): RunKey {
    RunKey(g.isEdge, g.entityType, g.runId)
  }

  // The groups are the runs that mention a file of the entity; each kind has the file mentioned last.
  ghost predicate Grouped(entries: seq<Entry>, groups: seq<CompactionGroup>) {
    && (forall i, j | 0 <= i < j < |groups| :: KeyOf(groups[i]) != KeyOf(groups[j]))
    && (forall g, kind | g in groups :: GroupFile(g, kind) == LastFile(entries, KeyOf(g), kind))
    && (forall g | g in groups :: exists kind :: kind in g.files)
    && (forall key, kind | LastFile(entries, key, kind).Some? :: exists g :: g in groups && KeyOf(g) == key)
  }

  function GroupFile(g: CompactionGroup, kind: string): Option<ManifestFile> {
    if kind in g.files then Some(g.files[kind]) else None
  }

  ghost predicate Filled(entries: seq<Entry>, order: seq<RunKey>, table: GroupTable) {
    && (forall i, j | 0 <= i < j < |order| :: order[i] != order[j])
    && (forall key :: key in order <==> key in table)
    && (forall key, kind :: Lookup(table, key, kind) == LastFile(entries, key, kind))
    && (forall key | key in table :: exists kind :: kind in table[key])
  }

  // The runs in the order in which they are first mentioned, and their files so far.
  datatype Tally = Tally(order: seq<RunKey>, table: GroupTable)

  function TallyNext(t: Tally, e: Entry): Tally {
    match ParseGraphUri(e.file.uri)
    case None => t
    case Some(k) =>
      var key := RunKey(k.isEdge, k.entityType, e.runId);
      var files := if key in t.table then t.table[key] else map[];
      Tally(if key in t.table then t.order else t.order + [key], t.table[key := files[k.fileKind := e.file]])
  }

  function TallyOf(entries: seq<Entry>): Tally {
    if entries == [] then Tally([], map[]) else TallyNext(TallyOf(entries[..|entries| - 1]), entries[|entries| - 1])
  }

  function GroupsOf(entries: seq<Entry>): seq<CompactionGroup> {
    var t := TallyOf(entries);
    seq(|t.order|, i requires 0 <= i < |t.order| => MakeGroup(t.order[i], t.table))
  }

  lemma FillNext(entries: seq<Entry>, t: Tally, e: Entry)
    requires Filled(entries, t.order, t.table)
    ensures Filled(entries + [e], TallyNext(t, e).order, TallyNext(t, e).table)
  {
    var next := TallyNext(t, e);
    forall key, kind
      ensures Lookup(next.table, key, kind) == LastFile(entries + [e], key, kind)
    {
      assert (entries + [e])[..|entries|] == entries;
      assert Lookup(t.table, key, kind) == LastFile(entries, key, kind);
    }
    forall key | key in next.table
      ensures exists kind :: kind in next.table[key]
    {
      match ParseGraphUri(e.file.uri)
      case None =>
      case Some(k) =>
        if key == RunKey(k.isEdge, k.entityType, e.runId) {
          assert k.fileKind in next.table[key];
        }
    }
  }

  lemma {:induction false} TallyFills(entries: seq<Entry>)
    ensures Filled(entries, TallyOf(entries).order, TallyOf(entries).table)
  {
    if entries != [] {
      var m := |entries| - 1;
      TallyFills(entries[..m]);
      FillNext(entries[..m], TallyOf(entries[..m]), entries[m]);
      assert entries[..m] + [entries[m]] == entries;
    }
  }

  lemma GroupsAreGrouped(entries: seq<Entry>)
    ensures Grouped(entries, GroupsOf(entries))
  {
    TallyFills(entries);
    MadeGroups(entries, TallyOf(entries).order, TallyOf(entries).table, GroupsOf(entries));
  }

  lemma TallyStart()
    ensures TallyOf([]) == Tally([], map[]) && Entries([]) == []
  {
  }

  lemma TallyWith(entries: seq<Entry>, e: Entry)
    ensures TallyOf(entries + [e]) == TallyNext(TallyOf(entries), e)
  {
    assert (entries + [e])[..|entries|] == entries;
  }

  lemma TaggedLength(m: ManifestInfo)
    ensures |Tagged(m)| == |m.files|
  {
  }

  lemma TaggedNext(m: ManifestInfo, j: nat)
    requires j < |m.files|
    ensures Tagged(m)[..j + 1] == Tagged(m)[..j] + [Entry(m.runId, m.files[j])]
  {
  }

  method GroupManifests(manifests: seq<ManifestInfo>) returns (groups: seq<CompactionGroup>)
    ensures groups == GroupsOf(Entries(manifests)) && Grouped(Entries(manifests), groups)
  {
    hide ParseGraphUri, TallyOf, Tagged;
    TallyStart();
    var table: GroupTable := map[];
    var order: seq<RunKey> := [];
    ghost var seen: seq<Entry> := [];
    for i := 0 to |manifests|
      invariant Tally(order, table) == TallyOf(seen) && seen == Entries(manifests[..i])
    {
      var manifest := manifests[i];
      assert |Tagged(manifest)| == |manifest.files| by {
        TaggedLength(manifest);
      }
      for j := 0 to |manifest.files|
        invariant Tally(order, table) == TallyOf(seen)
        invariant seen == Entries(manifests[..i]) + Tagged(manifest)[..j]
      {
        var file := manifest.files[j];
        var parsed := ParseGraphUri(file.uri);
        if parsed.Some? {
          var k := parsed.value;
          var key := RunKey(k.isEdge, k.entityType, manifest.runId);
          var files: map<string, ManifestFile> := if key in table then table[key] else map[];
          if key !in table {
            order := order + [key];
          }
          table := table[key := files[k.fileKind := file]];
        }
        TallyWith(seen, Entry(manifest.runId, file));
        TaggedNext(manifest, j);
        seen := seen + [Entry(manifest.runId, file)];
      }
      assert manifests[..i + 1][..i] == manifests[..i];
      assert Tagged(manifest)[..|manifest.files|] == Tagged(manifest);
    }
    assert manifests[..|manifests|] == manifests;
    groups := seq(|order|, i requires 0 <= i < |order| => MakeGroup(order[i], table));
    GroupsAreGrouped(seen);
  }

  function MakeGroup(key: RunKey, table: GroupTable): CompactionGroup {
    CompactionGroup(key.entityType, key.isEdge, key.runId, if key in table then table[key] else map[])
  }

  lemma MadeGroups(entries: seq<Entry>, order: seq<RunKey>, table: GroupTable, groups: seq<CompactionGroup>)
    requires Filled(entries, order, table)
    requires |groups| == |order| && forall i | 0 <= i < |order| :: groups[i] == MakeGroup(order[i], table)
    ensures Grouped(entries, groups)
  {
    forall i, j | 0 <= i < j < |groups|
      ensures KeyOf(groups[i]) != KeyOf(groups[j])
    {
      assert order[i] != order[j];
    }
    forall g | g in groups
      ensures exists kind :: kind in g.files
      ensures forall kind :: GroupFile(g, kind) == LastFile(entries, KeyOf(g), kind)
    {
      var i :| 0 <= i < |groups| && groups[i] == g;
      assert order[i] in table && KeyOf(g) == order[i];
      forall kind
        ensures GroupFile(g, kind) == LastFile(entries, KeyOf(g), kind)
      {
        assert Lookup(table, order[i], kind) == LastFile(entries, order[i], kind);
      }
    }
    forall key, kind | LastFile(entries, key, kind).Some?
      ensures exists g :: g in groups && KeyOf(g) == key
    {
      assert Lookup(table, key, kind).Some?;
      var i :| 0 <= i < |order| && order[i] == key;
      assert groups[i] in groups;
    }
  }

  // At most one file per run, entity and kind: then no mentioned file is overlooked.
  lemma {:induction false} NothingOverlooked(entries: seq<Entry>, e: Entry, key: RunKey, kind: string)
    requires e in entries && IsFor(e, key, kind)
    requires forall i, j | 0 <= i < j < |entries| :: !(IsFor(entries[i], key, kind) && IsFor(entries[j], key, kind))
    ensures LastFile(entries, key, kind) == Some(e.file)
  {
    var m := |entries| - 1;
    if IsFor(entries[m], key, kind) {
      var i :| 0 <= i < |entries| && entries[i] == e;
    } else {
      NothingOverlooked(entries[..m], e, key, kind);
    }
  }

  // ---------------------------------------------------------------- one entity at a time

  // String comparison as in sorted().
  predicate NoGreater(a: string, b: string) {
    a == [] || (b != [] && (a[0] < b[0] || (a[0] == b[0] && NoGreater(a[1..], b[1..]))))
  }

  lemma {:induction false} NoGreaterTotal(a: string, b: string)
    ensures NoGreater(a, b) || NoGreater(b, a)
  {
    if a != [] && b != [] {
      NoGreaterTotal(a[1..], b[1..]);
    }
  }

  lemma {:induction false} NoGreaterTransitive(a: string, b: string, c: string)
    requires NoGreater(a, b) && NoGreater(b, c)
    ensures NoGreater(a, c)
  {
    if a != [] && b != [] && c != [] && a[0] == b[0] == c[0] {
      NoGreaterTransitive(a[1..], b[1..], c[1..]);
    }
  }

  predicate RunNoLater(g: CompactionGroup, h: CompactionGroup) {
    NoGreater(g.runId, h.runId)
  }

  lemma TextOrder()
    ensures TotalPreorder(NoGreater) && TotalPreorder(RunNoLater)
  {
    forall a, b
      ensures NoGreater(a, b) || NoGreater(b, a)
    {
      NoGreaterTotal(a, b);
    }
    forall a, b, c | NoGreater(a, b) && NoGreater(b, c)
      ensures NoGreater(a, c)
    {
      NoGreaterTransitive(a, b, c);
    }
  }

  datatype EntityKey = EntityKey(entityType: string, isEdge: bool)

  function EntityOf(g: CompactionGroup): EntityKey {
    EntityKey(g.entityType, g.isEdge)
  }

  // The groups of each entity, entities in order of first appearance.
  function Entities(groups: seq<CompactionGroup>): (keys: seq<EntityKey>)
    ensures Distinct(keys)
    ensures forall e :: e in keys <==> exists g :: g in groups && EntityOf(g) == e
  {
    if groups == [] then []
    else
      var m := |groups| - 1;
      assert groups == groups[..m] + [groups[m]];
      var rest := Entities(groups[..m]);
      if EntityOf(groups[m]) in rest then rest else rest + [EntityOf(groups[m])]
  }

  predicate Less(a: string, b: string) {
    NoGreater(a, b) && a != b
  }

  lemma {:induction false} NoGreaterBothWays(a: string, b: string)
    requires NoGreater(a, b) && NoGreater(b, a)
    ensures a == b
  {
    if a != [] {
      NoGreaterBothWays(a[1..], b[1..]);
      assert a == [a[0]] + a[1..] && b == [b[0]] + b[1..];
    }
  }

  ghost function Listing(s: set<string>): (listed: seq<string>)
    ensures Distinct(listed) && forall k :: k in listed <==> k in s
  {
    if s == {} then []
    else
      var k :| k in s;
      [k] + Listing(s - {k})
  }

  function AllKinds(groups: seq<CompactionGroup>): set<string> {
    set g, k | g in groups && k in g.files :: k
  }

  // The kinds that some group has, in the order of texts.
  ghost function KindsOf(groups: seq<CompactionGroup>): seq<string> {
    Sort(NoGreater, Listing(AllKinds(groups)))
  }

  lemma KindsShape(groups: seq<CompactionGroup>)
    ensures Distinct(KindsOf(groups)) && Sorted(NoGreater, KindsOf(groups))
    ensures forall k :: k in KindsOf(groups) <==> exists g :: g in groups && k in g.files
  {
    var listed := Listing(AllKinds(groups));
    TextOrder();
    SortIsSorted(NoGreater, listed);
    SameMembers(KindsOf(groups), listed);
    DistinctReordered(KindsOf(groups), listed);
  }

  lemma StrictlySorted(kinds: seq<string>)
    requires Distinct(kinds) && Sorted(NoGreater, kinds)
    ensures Sorted(Less, kinds)
  {
  }

  lemma KindsAre(groups: seq<CompactionGroup>, kinds: seq<string>)
    requires Distinct(kinds) && Sorted(NoGreater, kinds)
    requires forall k :: k in kinds <==> exists g :: g in groups && k in g.files
    ensures kinds == KindsOf(groups)
  {
    KindsShape(groups);
    StrictlySorted(kinds);
    StrictlySorted(KindsOf(groups));
    forall a, b
      ensures !(Less(a, b) && Less(b, a))
    {
      if NoGreater(a, b) && NoGreater(b, a) {
        NoGreaterBothWays(a, b);
      }
    }
    OrderIsUnique(Less, kinds, KindsOf(groups));
  }

  method ExpectedKinds(groups: seq<CompactionGroup>) returns (kinds: seq<string>)
    ensures kinds == KindsOf(groups)
  {
    var found: set<string> := {};
    for i := 0 to |groups|
      invariant forall k :: k in found <==> exists g :: g in groups[..i] && k in g.files
    {
      assert groups[..i + 1] == groups[..i] + [groups[i]];
      found := found + groups[i].files.Keys;
    }
    assert groups[..|groups|] == groups;
    var listed: seq<string> := [];
    var rest := found;
    while rest != {}
      invariant Distinct(listed) && rest <= found
      invariant forall k :: k in listed <==> k in found && k !in rest
      decreases rest
    {
      var k :| k in rest;
      listed := listed + [k];
      rest := rest - {k};
    }
    kinds := Sort(NoGreater, listed);
    TextOrder();
    SortIsSorted(NoGreater, listed);
    SameMembers(kinds, listed);
    DistinctReordered(kinds, listed);
    KindsAre(groups, kinds);
  }

  // A group takes part if it has every kind some group of its entity has, among them the core file.
  ghost predicate Eligible(groups: seq<CompactionGroup>, g: CompactionGroup) {
    && g in groups
    && (forall h | h in groups && EntityOf(h) == EntityOf(g) :: h.files.Keys <= g.files.Keys)
    && (g.isEdge || "core" in g.files)
  }

  // The eligible groups of an entity by run id.
  ghost function EligibleOf(groups: seq<CompactionGroup>, e: EntityKey): seq<CompactionGroup> {
    var mine := Where(groups, OfEntity(e));
    var kinds := KindsOf(mine);
    if kinds == [] || (!e.isEdge && "core" !in kinds) then [] else Sort(RunNoLater, Where(mine, HavingAll(kinds)))
  }

  lemma EligibleShape(groups: seq<CompactionGroup>, e: EntityKey)
    requires forall g | g in groups :: exists kind :: kind in g.files
    ensures var kinds, eligible := KindsOf(Where(groups, OfEntity(e))), EligibleOf(groups, e);
      && Distinct(kinds) && (eligible != [] ==> kinds != [])
      && Sorted(RunNoLater, eligible) && (Distinct(groups) ==> Distinct(eligible))
      && (forall g | g in eligible :: forall k :: k in g.files <==> k in kinds)
      && (forall g :: g in eligible <==> Eligible(groups, g) && EntityOf(g) == e)
  {
    hide NoGreater, RunNoLater, Sort, TotalPreorder, KindsOf, Eligible;
    var mine := Where(groups, OfEntity(e));
    var kinds := KindsOf(mine);
    KindsShape(mine);
    EligibleMembers(groups, e);
    if kinds != [] && (e.isEdge || "core" in kinds) {
      var complete := Where(mine, HavingAll(kinds));
      TextOrder();
      SortIsSorted(RunNoLater, complete);
      SameMembers(EligibleOf(groups, e), complete);
      if Distinct(groups) {
        WhereDistinct(groups, OfEntity(e));
        WhereDistinct(mine, HavingAll(kinds));
        DistinctReordered(EligibleOf(groups, e), complete);
      }
    }
  }

  // The groups that take part are those of the entity that have all its kinds, if these include the core.
  lemma EligibleMembers(groups: seq<CompactionGroup>, e: EntityKey)
    requires forall g | g in groups :: exists kind :: kind in g.files
    ensures var mine := Where(groups, OfEntity(e));
      var kinds := KindsOf(mine);
      forall g :: Eligible(groups, g) && EntityOf(g) == e <==>
        kinds != [] && (e.isEdge || "core" in kinds) && g in Where(mine, HavingAll(kinds))
  {
    var mine := Where(groups, OfEntity(e));
    var kinds := KindsOf(mine);
    hide KindsOf, Eligible, Where;
    forall g
      ensures Eligible(groups, g) && EntityOf(g) == e <==>
        kinds != [] && (e.isEdge || "core" in kinds) && g in Where(mine, HavingAll(kinds))
    {
      EligibleMember(groups, e, g);
    }
  }

  lemma EligibleMember(groups: seq<CompactionGroup>, e: EntityKey, g: CompactionGroup)
    requires forall h | h in groups :: exists kind :: kind in h.files
    ensures var mine := Where(groups, OfEntity(e));
      var kinds := KindsOf(mine);
      Eligible(groups, g) && EntityOf(g) == e <==>
        kinds != [] && (e.isEdge || "core" in kinds) && g in Where(mine, HavingAll(kinds))
  {
    hide KindsOf;
    var mine := Where(groups, OfEntity(e));
    KindsShape(mine);
    if Eligible(groups, g) && EntityOf(g) == e {
      var kind :| kind in g.files;
      assert g in mine && kind in KindsOf(mine);
    }
  }

  // The kinds an entity is expected to have, and its eligible groups by run id.
  method SelectGroups(groups: seq<CompactionGroup>, e: EntityKey)
    returns (kinds: seq<string>, eligible: seq<CompactionGroup>)
    requires forall g | g in groups :: exists kind :: kind in g.files
    ensures kinds == KindsOf(Where(groups, OfEntity(e))) && eligible == EligibleOf(groups, e)
    ensures Distinct(kinds) && (eligible != [] ==> kinds != [])
    ensures Sorted(RunNoLater, eligible) && (Distinct(groups) ==> Distinct(eligible))
    ensures forall g | g in eligible :: forall k :: k in g.files <==> k in kinds
    ensures forall g :: g in eligible <==> Eligible(groups, g) && EntityOf(g) == e
  {
    EligibleShape(groups, e);
    hide Eligible, Sorted, KindsOf;
    var entityGroups := Where(groups, OfEntity(e));
    kinds := ExpectedKinds(entityGroups);
    if kinds == [] || (!e.isEdge && "core" !in kinds) {
      return kinds, [];
    }
    eligible := Sort(RunNoLater, Where(entityGroups, HavingAll(kinds)));
  }

  function OfEntity(e: EntityKey): CompactionGroup -> bool {
    (g: CompactionGroup) => EntityOf(g) == e
  }

  function HavingAll(kinds: seq<string>): CompactionGroup -> bool {
    (g: CompactionGroup) => forall k | k in kinds :: k in g.files
  }

  // A run that has every kind any run has for the entity, among them the core file.
  ghost predicate EligibleRun(entries: seq<Entry>, key: RunKey) {
    && (forall other: RunKey, kind | other.isEdge == key.isEdge && other.entityType == key.entityType
        && LastFile(entries, other, kind).Some? :: LastFile(entries, key, kind).Some?)
    && (key.isEdge || LastFile(entries, key, "core").Some?)
  }

  lemma {:induction false} LastFileMentioned(entries: seq<Entry>, key: RunKey, kind: string)
    requires LastFile(entries, key, kind).Some?
    ensures exists e :: e in entries && e.file == LastFile(entries, key, kind).value && IsFor(e, key, kind)
  {
    var m := |entries| - 1;
    if IsFor(entries[m], key, kind) {
      assert entries[m] in entries;
    } else {
      LastFileMentioned(entries[..m], key, kind);
    }
  }

  lemma SameKeySameGroup(groups: seq<CompactionGroup>, g: CompactionGroup, h: CompactionGroup)
    requires forall i, j | 0 <= i < j < |groups| :: KeyOf(groups[i]) != KeyOf(groups[j])
    requires g in groups && h in groups && KeyOf(g) == KeyOf(h)
    ensures g == h
  {
    var i :| 0 <= i < |groups| && groups[i] == g;
    var j :| 0 <= j < |groups| && groups[j] == h;
  }

  // A batch of complete groups of one entity.
  ghost predicate PlannedFor(groups: seq<CompactionGroup>, e: EntityKey, batch: CompactionBatch) {
    && batch.groups != [] && Distinct(batch.fileKinds) && batch.entityType == e.entityType && batch.isEdge == e.isEdge
    && forall g | g in batch.groups ::
      g in groups && EntityOf(g) == e && forall k :: k in g.files <==> k in batch.fileKinds
  }

  // The batches of an entity.
  ghost function EntityPlan(
    policy: CompactionPolicy, groups: seq<CompactionGroup>, e: EntityKey): seq<CompactionBatch>
  {
    PlannedBatches(policy, KindsOf(Where(groups, OfEntity(e))), EligibleOf(groups, e))
  }

  lemma EntityPlanShape(policy: CompactionPolicy, groups: seq<CompactionGroup>, e: EntityKey)
    requires forall g | g in groups :: exists kind :: kind in g.files
    ensures var batches := EntityPlan(policy, groups, e);
      && (forall b | 0 <= b < |batches| :: PlannedFor(groups, e, batches[b]))
      && (forall g :: g in Concat(batches) <==> Eligible(groups, g) && EntityOf(g) == e)
      && Sorted(RunNoLater, Concat(batches)) && (Distinct(groups) ==> Distinct(Concat(batches)))
  {
    var kinds, sorted := KindsOf(Where(groups, OfEntity(e))), EligibleOf(groups, e);
    EligibleShape(groups, e);
    hide EligibleOf, KindsOf, Eligible, PlannedBatches, Sorted;
    if kinds == [] {
      NothingPlanned(policy, sorted);
    } else {
      PlanPartitions(policy, kinds, sorted);
      ConcatMembers(PlannedBatches(policy, kinds, sorted));
      AllPlanned(policy, kinds, groups, e, sorted, PlannedBatches(policy, kinds, sorted));
    }
  }

  lemma AllPlanned(
    policy: CompactionPolicy, kinds: seq<string>, groups: seq<CompactionGroup>, e: EntityKey,
    sorted: seq<CompactionGroup>, batches: seq<CompactionBatch>)
    requires Distinct(kinds) && Sound(policy, kinds, batches)
    requires forall g | g in sorted :: g in groups && EntityOf(g) == e && forall k :: k in g.files <==> k in kinds
    requires forall b, g | b in batches && g in b.groups :: g in sorted
    ensures forall b | 0 <= b < |batches| :: PlannedFor(groups, e, batches[b])
  {
    hide HadToEnd;
    forall b | 0 <= b < |batches|
      ensures PlannedFor(groups, e, batches[b])
    {
      assert batches[b] in batches && batches[b].groups != [];
      assert batches[b].groups[0] in batches[b].groups;
    }
  }

  lemma NothingPlanned(policy: CompactionPolicy, groups: seq<CompactionGroup>)
    ensures PlannedBatches(policy, [], groups) == [] && Concat([]) == []
  {
  }

  method PlanEntity(policy: CompactionPolicy, groups: seq<CompactionGroup>, e: EntityKey)
    returns (batches: seq<CompactionBatch>)
    requires forall g | g in groups :: exists kind :: kind in g.files
    ensures batches == EntityPlan(policy, groups, e)
    ensures forall b | 0 <= b < |batches| :: PlannedFor(groups, e, batches[b])
    ensures forall g :: g in Concat(batches) <==> Eligible(groups, g) && EntityOf(g) == e
    ensures Sorted(RunNoLater, Concat(batches)) && (Distinct(groups) ==> Distinct(Concat(batches)))
  {
    EntityPlanShape(policy, groups, e);
    hide Eligible, PlannedFor, Sorted;
    var kinds, sorted := SelectGroups(groups, e);
    if sorted == [] {
      NoGroupsNoBatches(policy, kinds);
      return [];
    }
    batches := Plan(policy, sorted, kinds);
  }

  lemma NoGroupsNoBatches(policy: CompactionPolicy, kinds: seq<string>)
    ensures PlannedBatches(policy, kinds, []) == []
  {
  }

  // ---------------------------------------------------------------- batches in a row

  lemma ConcatNext(batches: seq<CompactionBatch>, b: nat)
    requires b < |batches|
    ensures Concat(batches[..b + 1]) == Concat(batches[..b]) + batches[b].groups
  {
    ConcatAppend(batches[..b], batches[b]);
    assert batches[..b + 1] == batches[..b] + [batches[b]];
  }

  lemma {:induction false} ConcatAppend(batches: seq<CompactionBatch>, batch: CompactionBatch)
    ensures Concat(batches + [batch]) == Concat(batches) + batch.groups
  {
    if batches != [] {
      assert (batches + [batch])[1..] == batches[1..] + [batch];
      ConcatAppend(batches[1..], batch);
    }
  }

  // ---------------------------------------------------------------- the work of a run

  function AllJobs(batches: seq<CompactionBatch>): seq<Job> {
    if batches == [] then [] else AllJobs(batches[..|batches| - 1]) + BatchJobs(batches[|batches| - 1])
  }

  ghost function RunJobs(policy: CompactionPolicy, groups: seq<CompactionGroup>, keys: seq<EntityKey>): seq<Job> {
    if keys == [] then []
    else RunJobs(policy, groups, keys[..|keys| - 1]) + AllJobs(EntityPlan(policy, groups, keys[|keys| - 1]))
  }

  // All that a run sets out to do, in order.
  ghost function PlannedJobs(policy: CompactionPolicy, entries: seq<Entry>): seq<Job> {
    RunJobs(policy, GroupsOf(entries), Entities(GroupsOf(entries)))
  }

  // A job is about groups that take part and have a file of the kind.
  ghost predicate JobFor(groups: seq<CompactionGroup>, job: Job) {
    Distinct(job.groups) && forall g | g in job.groups :: Eligible(groups, g) && job.kind in g.files
  }

  ghost predicate ApartJobs(a: Job, b: Job) {
    a.kind == b.kind ==> forall g | g in a.groups :: g !in b.groups
  }

  // No file is the source of two jobs.
  ghost predicate Apart(jobs: seq<Job>) {
    forall i, j | 0 <= i < j < |jobs| :: ApartJobs(jobs[i], jobs[j])
  }

  lemma ApartAppend(a: seq<Job>, b: seq<Job>)
    requires Apart(a) && Apart(b) && forall x, y | x in a && y in b :: ApartJobs(x, y)
    ensures Apart(a + b)
  {
    hide ApartJobs;
  }

  lemma BatchJobsShape(groups: seq<CompactionGroup>, e: EntityKey, batch: CompactionBatch)
    requires PlannedFor(groups, e, batch) && Distinct(batch.groups)
    requires forall g | g in batch.groups :: Eligible(groups, g)
    ensures Apart(BatchJobs(batch)) && forall j | j in BatchJobs(batch) :: JobFor(groups, j) && j.groups == batch.groups
  {
    hide Eligible;
  }

  lemma {:induction false} AllJobsShape(groups: seq<CompactionGroup>, e: EntityKey, batches: seq<CompactionBatch>)
    requires forall b | 0 <= b < |batches| :: PlannedFor(groups, e, batches[b])
    requires Distinct(Concat(batches)) && forall g | g in Concat(batches) :: Eligible(groups, g)
    ensures Apart(AllJobs(batches))
    ensures forall j | j in AllJobs(batches) :: JobFor(groups, j) && forall g | g in j.groups :: g in Concat(batches)
  {
    hide Eligible, PlannedFor, JobFor, ApartJobs, BatchJobs, Apart;
    if batches == [] {
      NoJobsApart();
    } else {
      var m := |batches| - 1;
      LastBatch(batches);
      AllJobsShape(groups, e, batches[..m]);
      BatchJobsShape(groups, e, batches[m]);
      forall x, y | x in AllJobs(batches[..m]) && y in BatchJobs(batches[m])
        ensures ApartJobs(x, y)
      {
        NoGroupTwice(x, y);
      }
      ApartAppend(AllJobs(batches[..m]), BatchJobs(batches[m]));
    }
  }

  lemma NoJobsApart()
    ensures Apart([])
  {
  }

  lemma NoGroupTwice(a: Job, b: Job)
    requires forall g | g in a.groups :: g !in b.groups
    ensures ApartJobs(a, b)
  {
  }

  lemma LastBatch(batches: seq<CompactionBatch>)
    requires batches != [] && Distinct(Concat(batches))
    ensures var m := |batches| - 1;
      && Distinct(Concat(batches[..m])) && Distinct(batches[m].groups)
      && (forall g | g in batches[m].groups :: g !in Concat(batches[..m]))
      && (forall g :: g in Concat(batches) <==> g in Concat(batches[..m]) || g in batches[m].groups)
  {
    hide Concat;
    var m := |batches| - 1;
    var before, last := Concat(batches[..m]), batches[m].groups;
    assert batches[..m + 1] == batches;
    ConcatNext(batches, m);
    assert Concat(batches) == before + last;
    DistinctParts(before, last);
  }

  lemma {:induction false} RunJobsShape(policy: CompactionPolicy, groups: seq<CompactionGroup>, keys: seq<EntityKey>)
    requires Distinct(groups) && Distinct(keys) && forall g | g in groups :: exists kind :: kind in g.files
    ensures Apart(RunJobs(policy, groups, keys))
    ensures forall j | j in RunJobs(policy, groups, keys) ::
      JobFor(groups, j) && forall g | g in j.groups :: EntityOf(g) in keys
  {
    hide Eligible, PlannedFor, JobFor, ApartJobs, AllJobs, EntityPlan, Apart;
    if keys == [] {
      NoJobsApart();
    } else {
      var m := |keys| - 1;
      assert keys == keys[..m] + [keys[m]] && keys[m] !in keys[..m];
      var rest, last := RunJobs(policy, groups, keys[..m]), EntityPlan(policy, groups, keys[m]);
      RunJobsShape(policy, groups, keys[..m]);
      EntityPlanShape(policy, groups, keys[m]);
      AllJobsShape(groups, keys[m], last);
      forall x, y | x in rest && y in AllJobs(last)
        ensures ApartJobs(x, y)
      {
        NoGroupTwice(x, y);
      }
      ApartAppend(rest, AllJobs(last));
    }
  }

  // Whatever takes part is worked on.
  lemma {:induction false} BatchFound(batches: seq<CompactionBatch>, g: CompactionGroup, kind: string)
    requires g in Concat(batches) && forall b | b in batches && g in b.groups :: kind in b.fileKinds
    ensures exists j :: j in AllJobs(batches) && g in j.groups && j.kind == kind
  {
    var m := |batches| - 1;
    assert batches == batches[..m] + [batches[m]] && batches[..m + 1] == batches;
    ConcatNext(batches, m);
    if g in batches[m].groups {
      var k :| 0 <= k < |batches[m].fileKinds| && batches[m].fileKinds[k] == kind;
      assert BatchJobs(batches[m])[k] == Job(batches[m].groups, kind);
      assert BatchJobs(batches[m])[k] in AllJobs(batches);
    } else {
      BatchFound(batches[..m], g, kind);
    }
  }

  lemma {:induction false} JobFound(
    policy: CompactionPolicy, groups: seq<CompactionGroup>, keys: seq<EntityKey>, g: CompactionGroup, kind: string)
    requires forall h | h in groups :: exists k :: k in h.files
    requires Eligible(groups, g) && kind in g.files && EntityOf(g) in keys
    ensures exists j :: j in RunJobs(policy, groups, keys) && g in j.groups && j.kind == kind
  {
    hide Eligible, EntityPlan;
    var m := |keys| - 1;
    assert keys == keys[..m] + [keys[m]];
    if EntityOf(g) == keys[m] {
      var batches := EntityPlan(policy, groups, keys[m]);
      EntityPlanShape(policy, groups, keys[m]);
      forall b | b in batches && g in b.groups
        ensures kind in b.fileKinds
      {
        var k :| 0 <= k < |batches| && batches[k] == b;
        assert PlannedFor(groups, keys[m], batches[k]);
      }
      BatchFound(batches, g, kind);
    } else {
      JobFound(policy, groups, keys[..m], g, kind);
    }
  }

  // ---------------------------------------------------------------- files that are there and not shared

  // The files of the runs that take part are stored, and no two runs have the same one.
  ghost predicate OwnFiles(files: map<Uri, Table>, entries: seq<Entry>) {
    && (forall key, kind | EligibleRun(entries, key) && LastFile(entries, key, kind).Some? ::
          LastFile(entries, key, kind).value.uri in files)
    && (forall key, other, k, l | EligibleRun(entries, key) && EligibleRun(entries, other)
          && LastFile(entries, key, k).Some? && LastFile(entries, other, l).Some?
          && LastFile(entries, key, k).value.uri == LastFile(entries, other, l).value.uri :: key == other)
  }

  // A run that takes part has a group that takes part, with the file mentioned last.
  lemma RunIsEligible(entries: seq<Entry>, groups: seq<CompactionGroup>, key: RunKey, kind: string)
    returns (g: CompactionGroup)
    requires Grouped(entries, groups) && EligibleRun(entries, key) && LastFile(entries, key, kind).Some?
    ensures Eligible(groups, g) && KeyOf(g) == key && kind in g.files
    ensures LastFile(entries, key, kind) == Some(g.files[kind])
  {
    g :| g in groups && KeyOf(g) == key;
    assert GroupFile(g, kind) == LastFile(entries, KeyOf(g), kind);
    assert GroupFile(g, "core") == LastFile(entries, KeyOf(g), "core");
    forall h, k | h in groups && EntityOf(h) == EntityOf(g) && k in h.files
      ensures k in g.files
    {
      assert GroupFile(h, k) == LastFile(entries, KeyOf(h), k);
      assert GroupFile(g, k) == LastFile(entries, KeyOf(g), k);
    }
  }

  // The files of a run that takes part are sources of the plan.
  lemma SourcePlanned(policy: CompactionPolicy, entries: seq<Entry>, key: RunKey, kind: string) returns (j: Job)
    requires EligibleRun(entries, key) && LastFile(entries, key, kind).Some?
    ensures j in PlannedJobs(policy, entries) && LastFile(entries, key, kind).value.uri in JobSources(j)
  {
    hide GroupsOf, EligibleRun, RunJobs, Eligible;
    var groups := GroupsOf(entries);
    GroupsAreGrouped(entries);
    DistinctGroups(entries, groups);
    var g := RunIsEligible(entries, groups, key, kind);
    TakesPart(groups, g);
    JobFound(policy, groups, Entities(groups), g, kind);
    RunJobsShape(policy, groups, Entities(groups));
    j :| j in RunJobs(policy, groups, Entities(groups)) && g in j.groups && j.kind == kind;
    assert JobFor(groups, j);
    var i :| 0 <= i < |j.groups| && j.groups[i] == g;
    assert SourceUris(j.groups, kind)[i] == g.files[kind].uri;
  }

  lemma TakesPart(groups: seq<CompactionGroup>, g: CompactionGroup)
    requires Eligible(groups, g)
    ensures g in groups && EntityOf(g) in Entities(groups)
  {
  }

  lemma DistinctGroups(entries: seq<Entry>, groups: seq<CompactionGroup>)
    requires Grouped(entries, groups)
    ensures Distinct(groups) && forall g | g in groups :: exists kind :: kind in g.files
  {
    forall i, j | 0 <= i < j < |groups|
      ensures groups[i] != groups[j]
    {
      assert KeyOf(groups[i]) != KeyOf(groups[j]);
    }
  }

  lemma {:induction false} LastFileKept(entries: seq<Entry>, more: seq<Entry>, key: RunKey, kind: string)
    requires forall e | e in more :: e.runId != key.runId
    ensures LastFile(entries + more, key, kind) == LastFile(entries, key, kind)
  {
    if more == [] {
      assert entries + more == entries;
    } else {
      var m := |more| - 1;
      assert more[m] in more && (entries + more)[..|entries + more| - 1] == entries + more[..m];
      LastFileKept(entries, more[..m], key, kind);
    }
  }

  lemma {:induction false} MentionedHasLast(entries: seq<Entry>, e: Entry, key: RunKey, kind: string)
    requires e in entries && IsFor(e, key, kind)
    ensures LastFile(entries, key, kind).Some?
  {
    var m := |entries| - 1;
    if !IsFor(entries[m], key, kind) {
      MentionedHasLast(entries[..m], e, key, kind);
    }
  }

  // The same of groups.
  ghost predicate OwnSources(files: map<Uri, Table>, groups: seq<CompactionGroup>) {
    && (forall g, k | Eligible(groups, g) && k in g.files :: g.files[k].uri in files)
    && (forall g, h, k, l | Eligible(groups, g) && Eligible(groups, h) && k in g.files && l in h.files
          && g.files[k].uri == h.files[l].uri :: g == h && k == l)
  }

  lemma EligibleIsRun(entries: seq<Entry>, groups: seq<CompactionGroup>, g: CompactionGroup)
    requires Grouped(entries, groups) && Eligible(groups, g)
    ensures EligibleRun(entries, KeyOf(g))
  {
    forall other: RunKey, kind | other.isEdge == g.isEdge && other.entityType == g.entityType
      && LastFile(entries, other, kind).Some?
      ensures LastFile(entries, KeyOf(g), kind).Some?
    {
      var h :| h in groups && KeyOf(h) == other;
      assert GroupFile(h, kind) == LastFile(entries, other, kind);
      assert kind in h.files && EntityOf(h) == EntityOf(g);
      assert GroupFile(g, kind) == LastFile(entries, KeyOf(g), kind);
    }
    assert GroupFile(g, "core") == LastFile(entries, KeyOf(g), "core");
  }

  lemma GroupsOwnSources(files: map<Uri, Table>, entries: seq<Entry>, groups: seq<CompactionGroup>)
    requires OwnFiles(files, entries) && Grouped(entries, groups)
    ensures OwnSources(files, groups) && Distinct(groups)
  {
    hide ParseGraphUri, Eligible, EligibleRun, IsFor;
    forall g, k | Eligible(groups, g) && k in g.files
      ensures g.files[k].uri in files && EligibleRun(entries, KeyOf(g)) && g in groups
      ensures LastFile(entries, KeyOf(g), k) == Some(g.files[k])
    {
      MemberFile(entries, groups, g, k);
    }
    forall g, h, k, l | Eligible(groups, g) && Eligible(groups, h) && k in g.files && l in h.files
      && g.files[k].uri == h.files[l].uri
      ensures g == h && k == l
    {
      assert KeyOf(g) == KeyOf(h);
      SameKeySameGroup(groups, g, h);
      SameKind(entries, KeyOf(g), k, l);
    }
    forall i, j | 0 <= i < j < |groups|
      ensures groups[i] != groups[j]
    {
      assert KeyOf(groups[i]) != KeyOf(groups[j]);
    }
  }

  lemma MemberFile(entries: seq<Entry>, groups: seq<CompactionGroup>, g: CompactionGroup, k: string)
    requires Grouped(entries, groups) && Eligible(groups, g) && k in g.files
    ensures EligibleRun(entries, KeyOf(g)) && LastFile(entries, KeyOf(g), k) == Some(g.files[k]) && g in groups
  {
    EligibleIsRun(entries, groups, g);
    assert GroupFile(g, k) == LastFile(entries, KeyOf(g), k);
  }

  lemma SameKind(entries: seq<Entry>, key: RunKey, k: string, l: string)
    requires LastFile(entries, key, k).Some? && LastFile(entries, key, l).Some?
    requires LastFile(entries, key, k).value.uri == LastFile(entries, key, l).value.uri
    ensures k == l
  {
    hide ParseGraphUri;
    LastFileMentioned(entries, key, k);
    LastFileMentioned(entries, key, l);
  }

  lemma {:induction false} UnsharedJobs(files: map<Uri, Table>, groups: seq<CompactionGroup>, jobs: seq<Job>)
    requires OwnSources(files, groups) && Apart(jobs) && forall j | j in jobs :: JobFor(groups, j)
    ensures Unshared(files, jobs)
  {
    if jobs != [] {
      hide Eligible;
      var m := |jobs| - 1;
      UnsharedJobs(files, groups, jobs[..m]);
      JobIsFine(files, groups, jobs[m]);
      forall u | u in JobSources(jobs[m])
        ensures u !in SourcesOf(jobs[..m])
      {
        InSources(jobs[..m], u);
        forall j | j in jobs[..m]
          ensures u !in JobSources(j)
        {
          var i :| 0 <= i < m && jobs[i] == j;
          NotShared(files, groups, j, jobs[m], u);
        }
      }
    }
  }

  lemma JobIsFine(files: map<Uri, Table>, groups: seq<CompactionGroup>, job: Job)
    requires OwnSources(files, groups) && JobFor(groups, job)
    ensures Complete(job) && AllStored(files, SourceUris(job.groups, job.kind))
    ensures Distinct(SourceUris(job.groups, job.kind))
  {
    hide Eligible;
    var uris := SourceUris(job.groups, job.kind);
    forall i | 0 <= i < |uris|
      ensures uris[i] in files
    {
      assert job.groups[i] in job.groups;
    }
    forall i, j | 0 <= i < j < |uris|
      ensures uris[i] != uris[j]
    {
      assert job.groups[i] in job.groups && job.groups[j] in job.groups && job.groups[i] != job.groups[j];
    }
  }

  lemma NotShared(files: map<Uri, Table>, groups: seq<CompactionGroup>, a: Job, b: Job, u: Uri)
    requires OwnSources(files, groups) && JobFor(groups, a) && JobFor(groups, b) && ApartJobs(a, b)
    ensures !(u in JobSources(a) && u in JobSources(b))
  {
    hide Eligible;
    forall i, j | 0 <= i < |a.groups| && 0 <= j < |b.groups|
      ensures a.groups[i].files[a.kind].uri != b.groups[j].files[b.kind].uri
    {
      assert a.groups[i] in a.groups && b.groups[j] in b.groups;
    }
  }

  // A plan for files that are there and not shared.
  lemma PlanIsUnshared(files: map<Uri, Table>, policy: CompactionPolicy, entries: seq<Entry>)
    requires OwnFiles(files, entries)
    ensures Unshared(files, PlannedJobs(policy, entries))
  {
    hide OwnFiles, OwnSources, RunJobs, Apart, JobFor, Unshared;
    var groups := GroupsOf(entries);
    GroupsAreGrouped(entries);
    hide GroupsOf;
    GroupsOwnSources(files, entries, groups);
    RunJobsShape(policy, groups, Entities(groups));
    UnsharedJobs(files, groups, PlannedJobs(policy, entries));
  }

  // Then a run fails exactly on a wrong count, if counts are checked, and exactly the sources of the jobs
  // before that are deleted, if that is asked for.
  lemma CleanRun(files: map<Uri, Table>, options: Options, policy: CompactionPolicy, entries: seq<Entry>)
    requires OwnFiles(files, entries)
    ensures var jobs := PlannedJobs(policy, entries);
      var f := RunFate(files, options, jobs);
      && (f.ok <==> options.dryRun || !options.strict || forall j | j in jobs :: CountRight(files, j))
      && f.gone == if Deletes(options) then SourcesOf(jobs[..Achieved(files, options, jobs)]) else {}
  {
    hide PlannedJobs, CountRight, RunFate, Unshared;
    PlanIsUnshared(files, policy, entries);
    UnsharedFate(files, options, PlannedJobs(policy, entries));
  }

  // Every graph file that a manifest mentions is stored with the rows it is said to have, and belongs to
  // one run.
  ghost predicate TruthfulManifests(files: map<Uri, Table>, entries: seq<Entry>) {
    && (forall e | e in entries && ParseGraphUri(e.file.uri).Some? ::
          e.file.uri in files && |files[e.file.uri].rows| == e.file.rows)
    && (forall e, f | e in entries && f in entries && ParseGraphUri(e.file.uri).Some? ::
          e.file.uri == f.file.uri ==> e.runId == f.runId)
  }

  lemma {:induction false} SumOfRows(groups: seq<CompactionGroup>, kind: string, lengths: seq<nat>, j: nat)
    requires j <= |groups| == |lengths| && forall i | 0 <= i < |groups| :: groups[i].Rows(kind) == lengths[i]
    ensures RowsIn(groups, kind, j) == Total(lengths[..j])
  {
    if j > 0 {
      SumOfRows(groups, kind, lengths, j - 1);
      assert lengths[..j][..j - 1] == lengths[..j - 1];
    }
  }

  lemma TruthfulAreOwn(files: map<Uri, Table>, entries: seq<Entry>)
    requires TruthfulManifests(files, entries)
    ensures OwnFiles(files, entries)
    ensures forall key, kind | LastFile(entries, key, kind).Some? ::
      var f := LastFile(entries, key, kind).value;
      f.uri in files && |files[f.uri].rows| == f.rows
  {
    hide ParseGraphUri, EligibleRun, LastFile;
    forall key, kind | LastFile(entries, key, kind).Some?
      ensures var f := LastFile(entries, key, kind).value; f.uri in files && |files[f.uri].rows| == f.rows
    {
      LastFileMentioned(entries, key, kind);
    }
    forall key, other, k, l | LastFile(entries, key, k).Some? && LastFile(entries, other, l).Some?
      && LastFile(entries, key, k).value.uri == LastFile(entries, other, l).value.uri
      ensures key == other
    {
      LastFileMentioned(entries, key, k);
      LastFileMentioned(entries, other, l);
    }
  }

  lemma TruthfulJob(files: map<Uri, Table>, job: Job)
    requires Complete(job) && AllStored(files, SourceUris(job.groups, job.kind))
    requires forall g | g in job.groups ::
      g.files[job.kind].uri in files && |files[g.files[job.kind].uri].rows| == g.files[job.kind].rows
    ensures CountRight(files, job)
  {
    var lengths := Lengths(Loaded(files, SourceUris(job.groups, job.kind)));
    forall i | 0 <= i < |job.groups|
      ensures job.groups[i].Rows(job.kind) == lengths[i]
    {
      assert job.groups[i] in job.groups;
    }
    SumOfRows(job.groups, job.kind, lengths, |job.groups|);
    assert lengths[..|lengths|] == lengths;
  }

  // On such manifests no run fails.
  lemma TruthfulGoes(files: map<Uri, Table>, options: Options, policy: CompactionPolicy, entries: seq<Entry>)
    requires TruthfulManifests(files, entries)
    ensures RunFate(files, options, PlannedJobs(policy, entries)).ok
  {
    TruthfulAreOwn(files, entries);
    CleanRun(files, options, policy, entries);
    GroupsAreGrouped(entries);
    var groups, jobs := GroupsOf(entries), PlannedJobs(policy, entries);
    hide GroupsOf, RunJobs, TruthfulManifests, RunFate, Eligible, OwnFiles, CountRight;
    GroupsOwnSources(files, entries, groups);
    RunJobsShape(policy, groups, Entities(groups));
    hide PlannedJobs;
    forall job | job in jobs
      ensures CountRight(files, job)
    {
      assert JobFor(groups, job);
      JobIsFine(files, groups, job);
      forall g | g in job.groups
        ensures g.files[job.kind].uri in files
        ensures |files[g.files[job.kind].uri].rows| == g.files[job.kind].rows
      {
        MemberFile(entries, groups, g, job.kind);
      }
      TruthfulJob(files, job);
    }
  }
}
