// What becomes of a compaction run, told from what there is before it (retikon_core/compaction/runner.py):
// the planned work, piece by piece, whether it goes through, and which of the old files it deletes.

module CompactionFate {
  import opened CompactionTypes
  import opened Sequences
  import opened Tables

  datatype Options = Options(deleteSource: bool, dryRun: bool, strict: bool)

  predicate Deletes(options: Options) {
    options.deleteSource && !options.dryRun
  }

  // One file kind of a batch.
  datatype Job = Job(groups: seq<CompactionGroup>, kind: string)

  // Whether the work goes through, and the files that are gone then.
  datatype Fate = Fate(ok: bool, gone: set<Uri>)

  function SourceUris(groups: seq<CompactionGroup>, kind: string): seq<Uri>
    requires forall g | g in groups :: kind in g.files
  {
    seq(|groups|, i requires 0 <= i < |groups| => groups[i].files[kind].uri)
  }

  function Loaded(files: map<Uri, Table>, uris: seq<Uri>): seq<Table>
    requires forall u | u in uris :: u in files
  {
    seq(|uris|, i requires 0 <= i < |uris| => files[uris[i]])
  }

  ghost predicate AllStored(files: map<Uri, Table>, uris: seq<Uri>) {
    forall u | u in uris :: u in files
  }

  function Paths(uris: seq<Uri>): set<Uri> {
    set u | u in uris
  }

  // How many paths can be deleted one after the other: those before the first that comes again.
  function Fresh(uris: seq<Uri>): nat {
    FreshFrom(uris, 0)
  }

  function FreshFrom(uris: seq<Uri>, k: nat): (n: nat)
    requires k <= |uris| && Distinct(uris[..k])
    ensures k <= n <= |uris| && Distinct(uris[..n])
    ensures n < |uris| ==> uris[n] in uris[..n]
    ensures n == |uris| <==> Distinct(uris)
    decreases |uris| - k
  {
    if k == |uris| then assert uris[..k] == uris; k
    else if uris[k] in uris[..k] then k
    else FreshFrom(uris, k + 1)
  }

  // Rewriting some sources into one file: all must be there, with the right number of rows if that is
  // asked for; what is deleted goes path by path, and a path that comes again cannot be deleted.
  ghost function Rewriting(files: map<Uri, Table>, options: Options, uris: seq<Uri>, rows: int): Fate {
    if !AllStored(files, uris) || (options.strict && rows != StoredRows(files, uris)) then Fate(false, {})
    else if options.deleteSource then Fate(Distinct(uris), Paths(uris[..Fresh(uris)]))
    else Fate(true, {})
  }

  function StoredRows(files: map<Uri, Table>, uris: seq<Uri>): nat
    requires forall u | u in uris :: u in files
  {
    Total(Lengths(Loaded(files, uris)))
  }

  predicate Complete(job: Job) {
    forall g | g in job.groups :: job.kind in g.files
  }

  function JobSources(job: Job): set<Uri> {
    if Complete(job) then Paths(SourceUris(job.groups, job.kind)) else {}
  }

  ghost function JobFate(files: map<Uri, Table>, options: Options, job: Job): Fate {
    if !Complete(job) then Fate(false, {})
    else if options.dryRun then Fate(true, {})
    else Rewriting(files, options, SourceUris(job.groups, job.kind), KindRows(job.groups, job.kind))
  }

  // The jobs one after the other, up to the first that fails; each finds what those before it have left.
  ghost function RunFate(files: map<Uri, Table>, options: Options, jobs: seq<Job>): Fate {
    if jobs == [] then Fate(true, {})
    else
      var so := RunFate(files, options, jobs[..|jobs| - 1]);
      if !so.ok then so
      else
        var last := JobFate(files - so.gone, options, jobs[|jobs| - 1]);
        Fate(last.ok, so.gone + last.gone)
  }

  lemma OneJob(files: map<Uri, Table>, options: Options, job: Job)
    ensures RunFate(files, options, [job]) == JobFate(files, options, job)
  {
    assert [job][..0] == [] && files - {} == files;
  }

  // A batch is done kind by kind.
  function JobsOf(groups: seq<CompactionGroup>, kinds: seq<string>): seq<Job> {
    seq(|kinds|, i requires 0 <= i < |kinds| => Job(groups, kinds[i]))
  }

  function BatchJobs(batch: CompactionBatch): seq<Job> {
    JobsOf(batch.groups, batch.fileKinds)
  }

  lemma JobsSplit(groups: seq<CompactionGroup>, kinds: seq<string>, i: nat)
    requires i < |kinds|
    ensures JobsOf(groups, kinds[..i + 1]) == JobsOf(groups, kinds[..i]) + [Job(groups, kinds[i])]
    ensures JobsOf(groups, kinds) == JobsOf(groups, kinds[..i + 1]) + JobsOf(groups, kinds[i + 1..])
  {
  }

  function SourcesOf(jobs: seq<Job>): set<Uri> {
    if jobs == [] then {} else SourcesOf(jobs[..|jobs| - 1]) + JobSources(jobs[|jobs| - 1])
  }

  lemma {:induction false} SourcesAppend(a: seq<Job>, b: seq<Job>)
    ensures SourcesOf(a + b) == SourcesOf(a) + SourcesOf(b)
  {
    if b == [] {
      assert a + b == a;
    } else {
      assert (a + b)[..|a + b| - 1] == a + b[..|b| - 1];
      SourcesAppend(a, b[..|b| - 1]);
    }
  }

  lemma {:induction false} InSources(jobs: seq<Job>, u: Uri)
    ensures u in SourcesOf(jobs) <==> exists j :: j in jobs && u in JobSources(j)
  {
    if jobs != [] {
      var m := |jobs| - 1;
      assert jobs == jobs[..m] + [jobs[m]];
      InSources(jobs[..m], u);
    }
  }

  // Only sources go, and only if that is asked for.
  lemma {:induction false} OnlySourcesGo(files: map<Uri, Table>, options: Options, jobs: seq<Job>)
    ensures RunFate(files, options, jobs).gone <= SourcesOf(jobs)
    ensures !Deletes(options) ==> RunFate(files, options, jobs).gone == {}
  {
    if jobs != [] {
      OnlySourcesGo(files, options, jobs[..|jobs| - 1]);
    }
  }

  // A run that goes through and deletes has deleted all its sources.
  lemma {:induction false} AllSourcesGo(files: map<Uri, Table>, options: Options, jobs: seq<Job>)
    requires RunFate(files, options, jobs).ok && Deletes(options)
    ensures RunFate(files, options, jobs).gone == SourcesOf(jobs)
  {
    if jobs != [] {
      var m := |jobs| - 1;
      AllSourcesGo(files, options, jobs[..m]);
      if Complete(jobs[m]) {
        var uris := SourceUris(jobs[m].groups, jobs[m].kind);
        assert uris[..|uris|] == uris;
      }
    }
  }

  // ---------------------------------------------------------------- runs in parts

  // The fate depends on nothing but the sources.
  ghost predicate Agree(a: map<Uri, Table>, b: map<Uri, Table>, uris: set<Uri>) {
    forall u | u in uris :: (u in a <==> u in b) && (u in a && u in b ==> a[u] == b[u])
  }

  lemma JobAgrees(a: map<Uri, Table>, b: map<Uri, Table>, options: Options, job: Job)
    requires Agree(a, b, JobSources(job))
    ensures JobFate(a, options, job) == JobFate(b, options, job)
  {
    if Complete(job) {
      var uris := SourceUris(job.groups, job.kind);
      assert forall u | u in uris :: u in JobSources(job);
      assert AllStored(a, uris) <==> AllStored(b, uris);
      if AllStored(a, uris) {
        assert Loaded(a, uris) == Loaded(b, uris);
      }
    }
  }

  lemma {:induction false} RunAgrees(a: map<Uri, Table>, b: map<Uri, Table>, options: Options, jobs: seq<Job>)
    requires Agree(a, b, SourcesOf(jobs))
    ensures RunFate(a, options, jobs) == RunFate(b, options, jobs)
  {
    if jobs != [] {
      var m := |jobs| - 1;
      RunAgrees(a, b, options, jobs[..m]);
      var gone := RunFate(a, options, jobs[..m]).gone;
      JobAgrees(a - gone, b - gone, options, jobs[m]);
    }
  }

  lemma {:induction false} FateAppend(files: map<Uri, Table>, options: Options, a: seq<Job>, b: seq<Job>)
    ensures var f, all := RunFate(files, options, a), RunFate(files, options, a + b);
      if !f.ok then all == f
      else
        var g := RunFate(files - f.gone, options, b);
        all == Fate(g.ok, f.gone + g.gone)
  {
    hide JobFate;
    var f := RunFate(files, options, a);
    if b == [] {
      assert a + b == a;
    } else {
      var m := |b| - 1;
      assert (a + b)[..|a + b| - 1] == a + b[..m];
      FateAppend(files, options, a, b[..m]);
      if f.ok {
        var g := RunFate(files - f.gone, options, b[..m]);
        assert files - (f.gone + g.gone) == files - f.gone - g.gone;
      }
    }
  }

  // What a run has made of the old files.
  ghost predicate Follows(f: Fate, before: map<Uri, Table>, ok: bool, now: map<Uri, Table>) {
    ok == f.ok && forall u | u in before :: u in now <==> u !in f.gone
  }

  lemma FollowsOn(
    before: map<Uri, Table>, options: Options, a: seq<Job>, mid: map<Uri, Table>, b: seq<Job>, ok: bool,
    now: map<Uri, Table>)
    requires Follows(RunFate(before, options, a), before, true, mid)
    requires Follows(RunFate(mid, options, b), mid, ok, now)
    requires forall u | u in SourcesOf(b) && u in mid :: u in before && mid[u] == before[u]
    requires forall u | u in before && u in now :: u in mid
    ensures Follows(RunFate(before, options, a + b), before, ok, now)
  {
    hide RunFate, SourcesOf;
    FateAppend(before, options, a, b);
    RunAgrees(mid, before - RunFate(before, options, a).gone, options, b);
  }

  // What comes behind a failure makes no difference.
  lemma FailureIsFinal(files: map<Uri, Table>, options: Options, a: seq<Job>, b: seq<Job>)
    requires !RunFate(files, options, a).ok
    ensures RunFate(files, options, a + b) == RunFate(files, options, a)
  {
    FateAppend(files, options, a, b);
  }

  // A job whose source is missing stops the run, if none before it does.
  lemma {:induction false} MissingStops(files: map<Uri, Table>, options: Options, jobs: seq<Job>, job: Job, u: Uri)
    requires job in jobs && u in JobSources(job) && u !in files && !options.dryRun
    ensures !RunFate(files, options, jobs).ok
  {
    var m := |jobs| - 1;
    assert jobs == jobs[..m] + [jobs[m]];
    if job in jobs[..m] {
      MissingStops(files, options, jobs[..m], job, u);
    }
  }

  // ---------------------------------------------------------------- sources that are there and not shared

  // Every source is stored and is the source of one job only, once.
  ghost predicate Unshared(files: map<Uri, Table>, jobs: seq<Job>) {
    jobs != [] ==>
      var m := |jobs| - 1;
      && Unshared(files, jobs[..m])
      && Complete(jobs[m])
      && AllStored(files, SourceUris(jobs[m].groups, jobs[m].kind))
      && Distinct(SourceUris(jobs[m].groups, jobs[m].kind))
      && JobSources(jobs[m]) !! SourcesOf(jobs[..m])
  }

  // The manifests' row counts add up to the rows that are stored.
  ghost predicate CountRight(files: map<Uri, Table>, job: Job) {
    && Complete(job) && AllStored(files, SourceUris(job.groups, job.kind))
    && KindRows(job.groups, job.kind) == StoredRows(files, SourceUris(job.groups, job.kind))
  }

  // The jobs before the first with a wrong count.
  ghost function Right(files: map<Uri, Table>, jobs: seq<Job>): (n: nat)
    ensures n <= |jobs| && (n < |jobs| ==> !CountRight(files, jobs[n]))
    ensures forall k | 0 <= k < n :: CountRight(files, jobs[k])
  {
    if jobs == [] then 0
    else
      var m := |jobs| - 1;
      var n := Right(files, jobs[..m]);
      if n < m || !CountRight(files, jobs[m]) then n else m + 1
  }

  // How many jobs a run does: if counts are checked, those before the first with a wrong count.
  ghost function Achieved(files: map<Uri, Table>, options: Options, jobs: seq<Job>): (n: nat)
    ensures n <= |jobs|
  {
    if options.strict && !options.dryRun then Right(files, jobs) else |jobs|
  }

  // Then a run fails exactly on a wrong count, if counts are checked, and what it deletes is exactly the
  // sources of all jobs before that.
  lemma {:induction false} UnsharedFate(files: map<Uri, Table>, options: Options, jobs: seq<Job>)
    requires Unshared(files, jobs)
    ensures var f, n := RunFate(files, options, jobs), Achieved(files, options, jobs);
      && (f.ok <==> n == |jobs|)
      && f.gone == if Deletes(options) then SourcesOf(jobs[..n]) else {}
  {
    hide JobFate, CountRight, JobSources, RunFate, Achieved, SourcesOf;
    if jobs == [] {
      NoJobs(files, options);
    } else {
      var m := |jobs| - 1;
      UnsharedFate(files, options, jobs[..m]);
      UnsharedLast(files, options, jobs);
      AchievedLast(files, options, jobs);
      hide Unshared;
      if Achieved(files, options, jobs[..m]) < m {
        Stopped(files, options, jobs, Achieved(files, options, jobs[..m]));
      } else {
        assert jobs[..m][..m] == jobs[..m] && jobs[..|jobs|] == jobs;
        OneJobMore(files, options, jobs);
      }
    }
  }

  lemma NoJobs(files: map<Uri, Table>, options: Options)
    ensures RunFate(files, options, []) == Fate(true, {}) && Achieved(files, options, []) == 0 && SourcesOf([]) == {}
  {
  }

  lemma Stopped(files: map<Uri, Table>, options: Options, jobs: seq<Job>, n: nat)
    requires n < |jobs| - 1 && !RunFate(files, options, jobs[..|jobs| - 1]).ok
    ensures RunFate(files, options, jobs) == RunFate(files, options, jobs[..|jobs| - 1])
    ensures jobs[..|jobs| - 1][..n] == jobs[..n]
  {
    RunFateLast(files, options, jobs);
  }

  lemma OneJobMore(files: map<Uri, Table>, options: Options, jobs: seq<Job>)
    requires jobs != []
    requires RunFate(files, options, jobs[..|jobs| - 1]).ok
    requires var job, so := jobs[|jobs| - 1], RunFate(files, options, jobs[..|jobs| - 1]);
      && so.gone == (if Deletes(options) then SourcesOf(jobs[..|jobs| - 1]) else {})
      && JobFate(files - so.gone, options, job).gone ==
           (if Deletes(options) && JobFate(files - so.gone, options, job).ok then JobSources(job) else {})
    ensures var f, job := RunFate(files, options, jobs), jobs[|jobs| - 1];
      && f.ok == JobFate(files - RunFate(files, options, jobs[..|jobs| - 1]).gone, options, job).ok
      && f.gone == if Deletes(options) then SourcesOf(if f.ok then jobs else jobs[..|jobs| - 1]) else {}
  {
    RunFateLast(files, options, jobs);
    SourcesLast(jobs);
    hide JobFate, JobSources, RunFate, SourcesOf;
  }

  lemma AchievedLast(files: map<Uri, Table>, options: Options, jobs: seq<Job>)
    requires jobs != []
    ensures var m := |jobs| - 1;
      var n := Achieved(files, options, jobs[..m]);
      Achieved(files, options, jobs) ==
        if n == m && (options.dryRun || !options.strict || CountRight(files, jobs[m])) then m + 1 else n
  {
    hide CountRight;
  }

  lemma RunFateLast(files: map<Uri, Table>, options: Options, jobs: seq<Job>)
    requires jobs != []
    ensures var so := RunFate(files, options, jobs[..|jobs| - 1]);
      RunFate(files, options, jobs) ==
        if !so.ok then so
        else
          var last := JobFate(files - so.gone, options, jobs[|jobs| - 1]);
          Fate(last.ok, so.gone + last.gone)
  {
    hide JobFate;
  }

  lemma SourcesLast(jobs: seq<Job>)
    requires jobs != []
    ensures SourcesOf(jobs) == SourcesOf(jobs[..|jobs| - 1]) + JobSources(jobs[|jobs| - 1])
  {
    hide JobSources;
  }

  lemma UnsharedLast(files: map<Uri, Table>, options: Options, jobs: seq<Job>)
    requires jobs != [] && Unshared(files, jobs)
    ensures Unshared(files, jobs[..|jobs| - 1])
    ensures var job, gone := jobs[|jobs| - 1], RunFate(files, options, jobs[..|jobs| - 1]).gone;
      var f := JobFate(files - gone, options, job);
      && (f.ok <==> options.dryRun || !options.strict || CountRight(files, job))
      && f.gone == if Deletes(options) && f.ok then JobSources(job) else {}
  {
    var m := |jobs| - 1;
    OnlySourcesGo(files, options, jobs[..m]);
    var gone := RunFate(files, options, jobs[..m]).gone;
    hide RunFate, SourcesOf;
    JobAgrees(files - gone, files, options, jobs[m]);
    UnsharedJob(files, options, jobs[m]);
  }

  lemma UnsharedJob(files: map<Uri, Table>, options: Options, job: Job)
    requires Complete(job)
    requires AllStored(files, SourceUris(job.groups, job.kind)) && Distinct(SourceUris(job.groups, job.kind))
    ensures var f := JobFate(files, options, job);
      && (f.ok <==> options.dryRun || !options.strict || CountRight(files, job))
      && f.gone == if Deletes(options) && f.ok then JobSources(job) else {}
  {
    var uris := SourceUris(job.groups, job.kind);
    assert uris[..|uris|] == uris;
  }
}
