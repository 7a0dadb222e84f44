// Whole runs of the scheduler: ticks one after the other, with runners at work between them
// (gcp_adapter/workflow_service.py). A runner loads a run, marks it as running and at last as ended;
// the queue may deliver a run to several runners, and any of them may stop for good.

module SchedulerHistory {
  import opened Optionals
  import opened Scheduler

  datatype Trigger = Trigger(workflow: WorkflowId, at: Time, schedule: Schedule, run: RunId)

  // The run as its runner knows it.
  datatype Runner = Runner(run: Run, started: bool)

  datatype State = State(now: Time, runs: seq<Run>, runners: map<nat, Runner>, triggers: seq<Trigger>)

  datatype Step =
    | Wait(dt: nat)
    | Tick(workflows: seq<Workflow>, handled: nat, fate: Fate, took: nat)    // ends after handled workflows
    | Load(runner: nat, run: RunId)
    | Start(runner: nat)
    | Finish(runner: nat, ok: bool)
    | Die(runner: nat)

  ghost predicate DistinctIds(workflows: seq<Workflow>) {
    forall i, j | 0 <= i < j < |workflows| :: workflows[i].id != workflows[j].id
  }

  ghost predicate Enabled(s: State, l: Step) {
    match l
    case Wait(_) => true
    case Tick(workflows, handled, fate, took) =>
      handled <= |workflows| && DistinctIds(workflows) && forall w :: fate(w).lag <= took
    case Load(r, k) => r !in s.runners && k < |s.runs| && IsActive(s.runs[k])
    case Start(r) => r in s.runners && !s.runners[r].started
    case Finish(r, _) => r in s.runners && s.runners[r].started
    case Die(r) => r in s.runners
  }

  // The triggers of a tick's first n workflows.
  function NewTriggers(runs: seq<Run>, workflows: seq<Workflow>, n: nat, now: Time): seq<Trigger>
    requires n <= |workflows|
  {
    if n == 0 then []
    else
      var before := NewTriggers(runs, workflows, n - 1, now);
      var w := workflows[n - 1];
      before + if Triggers(runs, w, now) then [Trigger(w.id, now, w.schedule.value, |runs| + |before|)] else []
  }

  ghost function Next(s: State, l: Step): State
    requires Enabled(s, l)
  {
    match l
    case Wait(dt) => s.(now := s.now + dt)
    case Tick(workflows, n, fate, took) =>
      State(s.now + took, s.runs + NewRuns(s.runs, workflows, n, |s.runs|, s.now, fate), s.runners,
        s.triggers + NewTriggers(s.runs, workflows, n, s.now))
    case Load(r, k) => s.(runners := s.runners[r := Runner(s.runs[k], false)])
    case Start(r) =>
      var run := s.runners[r].run.(status := Running, startedAt := Some(s.now));
      s.(runs := Stored(s.runs, run), runners := s.runners[r := Runner(run, true)])
    case Finish(r, ok) =>
      var run := s.runners[r].run.(status := if ok then Completed else Failed);
      s.(runs := Stored(s.runs, run), runners := s.runners - {r})
    case Die(r) => s.(runners := s.runners - {r})
  }

  const EMPTY := State(0, [], map[], [])

  // The state after any steps at all; one that cannot be taken is passed over.
  ghost function After(s: State, steps: seq<Step>): State {
    if steps == [] then s else Then(After(s, steps[..|steps| - 1]), steps[|steps| - 1])
  }

  ghost function Then(s: State, l: Step): State {
    if Enabled(s, l) then Next(s, l) else s
  }

  predicate StartedSince(r: Run, t: Time) {
    r.startedAt.Some? && r.startedAt.value >= t
  }

  ghost predicate TriggerStored(s: State, t: Trigger) {
    && t.run < |s.runs| && s.runs[t.run].workflow == t.workflow
    && StartedSince(s.runs[t.run], t.at) && t.at <= s.now
  }

  ghost predicate RunnerFits(s: State, q: Run) {
    && q.id < |s.runs| && s.runs[q.id].workflow == q.workflow
    && (forall k | 0 <= k < |s.triggers| && s.triggers[k].run == q.id :: StartedSince(q, s.triggers[k].at))
  }

  // Runs are named by their place, each trigger has a run that started no earlier, and the runners know
  // runs that are there.
  ghost predicate Consistent(s: State) {
    && (forall i | 0 <= i < |s.runs| :: s.runs[i].id == i)
    && (forall k | 0 <= k < |s.triggers| :: TriggerStored(s, s.triggers[k]))
    && (forall r | r in s.runners :: RunnerFits(s, s.runners[r].run))
  }

  // One workflow of the tick behind each new run and its trigger.
  ghost predicate Behind(
      runs: seq<Run>, workflows: seq<Workflow>, n: nat, now: Time, fate: Fate, i: nat, r: Run, t: Trigger) {
    exists j | 0 <= j < n && j < |workflows| ::
      && Triggers(runs, workflows[j], now)
      && r == NewRun(workflows[j].id, |runs| + i, now, fate)
      && t == Trigger(workflows[j].id, now, workflows[j].schedule.value, |runs| + i)
  }

  lemma {:induction false} TickShape(runs: seq<Run>, workflows: seq<Workflow>, n: nat, now: Time, fate: Fate)
    requires n <= |workflows| && DistinctIds(workflows)
    ensures var rs, ts := NewRuns(runs, workflows, n, |runs|, now, fate), NewTriggers(runs, workflows, n, now);
      && |rs| == |ts|
      && (forall i | 0 <= i < |rs| :: Behind(runs, workflows, n, now, fate, i, rs[i], ts[i]))
      && (forall i, j | 0 <= i < j < |rs| :: rs[i].workflow != rs[j].workflow)
  {
    if n > 0 {
      TickShape(runs, workflows, n - 1, now, fate);
      var rs, ts := NewRuns(runs, workflows, n - 1, |runs|, now, fate), NewTriggers(runs, workflows, n - 1, now);
      forall i | 0 <= i < |rs|
        ensures Behind(runs, workflows, n, now, fate, i, rs[i], ts[i])
        ensures rs[i].workflow != workflows[n - 1].id
      {
        assert Behind(runs, workflows, n - 1, now, fate, i, rs[i], ts[i]);
      }
      if Triggers(runs, workflows[n - 1], now) {
        var i := |rs|;
        assert Behind(runs, workflows, n, now, fate, i, NewRun(workflows[n - 1].id, |runs| + i, now, fate),
          Trigger(workflows[n - 1].id, now, workflows[n - 1].schedule.value, |runs| + i));
      }
    }
  }

  // Each trigger of a tick is of a new run.
  lemma TickTriggers(s: State, l: Step)
    requires Consistent(s) && Enabled(s, l) && l.Tick?
    ensures var t := Next(s, l);
      forall k | |s.triggers| <= k < |t.triggers| :: TriggerStored(t, t.triggers[k]) && t.triggers[k].run >= |s.runs|
  {
    TickShape(s.runs, l.workflows, l.handled, s.now, l.fate);
    var t := Next(s, l);
    hide Consistent, NewRuns, NewTriggers;
    forall k | |s.triggers| <= k < |t.triggers|
      ensures TriggerStored(t, t.triggers[k]) && t.triggers[k].run >= |s.runs|
    {
      var i := k - |s.triggers|;
      assert Behind(s.runs, l.workflows, l.handled, s.now, l.fate, i, t.runs[|s.runs| + i], t.triggers[k]);
    }
  }

  lemma ConsistentTick(s: State, l: Step)
    requires Consistent(s) && Enabled(s, l) && l.Tick?
    ensures Consistent(Next(s, l))
  {
    TickShape(s.runs, l.workflows, l.handled, s.now, l.fate);
    TickTriggers(s, l);
    hide NewRuns, NewTriggers;
    var t := Next(s, l);
    forall i | 0 <= i < |t.runs|
      ensures t.runs[i].id == i
    {
      if i >= |s.runs| {
        assert Behind(
          s.runs, l.workflows, l.handled, s.now, l.fate, i - |s.runs|, t.runs[i],
          t.triggers[|s.triggers| + i - |s.runs|]);
      }
    }
    forall k | 0 <= k < |s.triggers|
      ensures TriggerStored(t, t.triggers[k])
    {
      assert TriggerStored(s, s.triggers[k]);
    }
    forall r | r in t.runners
      ensures RunnerFits(t, t.runners[r].run)
    {
      assert RunnerFits(s, s.runners[r].run);
    }
  }

  lemma StoredInPlace(runs: seq<Run>, r: Run)
    requires (forall i | 0 <= i < |runs| :: runs[i].id == i) && r.id < |runs|
    ensures Stored(runs, r) == runs[r.id := r]
  {
    assert runs[r.id].id == r.id;
    assert Replaced(runs, r) == runs[r.id := r];
  }

  // A runner that stores its run leaves all consistent.
  lemma ConsistentUpdate(s: State, run: Run, runners: map<nat, Runner>)
    requires Consistent(s) && RunnerFits(s, run)
    requires forall r | r in runners :: RunnerFits(s, runners[r].run)
    ensures Consistent(s.(runs := Stored(s.runs, run), runners := runners))
  {
    StoredInPlace(s.runs, run);
    assert forall k | 0 <= k < |s.triggers| :: TriggerStored(s, s.triggers[k]);
  }

  lemma ConsistentStep(s: State, l: Step)
    requires Consistent(s) && Enabled(s, l)
    ensures Consistent(Next(s, l))
  {
    assert forall k | 0 <= k < |s.triggers| :: TriggerStored(s, s.triggers[k]);
    assert forall r | r in s.runners :: RunnerFits(s, s.runners[r].run);
    if l.Tick? {
      ConsistentTick(s, l);
    } else if l.Start? {
      hide Stored, Consistent;
      var run := s.runners[l.runner].run.(status := Running, startedAt := Some(s.now));
      ConsistentUpdate(s, run, s.runners[l.runner := Runner(run, true)]);
    } else if l.Finish? {
      hide Stored, Consistent;
      var run := s.runners[l.runner].run.(status := if l.ok then Completed else Failed);
      ConsistentUpdate(s, run, s.runners - {l.runner});
    }
  }

  lemma {:induction false} ConsistentAfter(s: State, steps: seq<Step>)
    requires Consistent(s)
    ensures Consistent(After(s, steps))
  {
    if steps != [] {
      var m := |steps| - 1;
      ConsistentAfter(s, steps[..m]);
      if Enabled(After(s, steps[..m]), steps[m]) {
        ConsistentStep(After(s, steps[..m]), steps[m]);
      }
    }
  }

  // The trigger t is far enough from an earlier one of its workflow.
  predicate Apart(earlier: Trigger, t: Trigger) {
    earlier.workflow == t.workflow ==>
      match t.schedule
      case Every(period) => t.at - earlier.at >= period
      case Cron(matches) => matches(Minute(t.at)) && Minute(earlier.at) < Minute(t.at)
      case Never => false
  }

  ghost predicate Spaced(triggers: seq<Trigger>) {
    forall i, j | 0 <= i < j < |triggers| :: Apart(triggers[i], triggers[j])
  }

  lemma SpacedTick(s: State, l: Step)
    requires Consistent(s) && Enabled(s, l) && l.Tick? && Spaced(s.triggers)
    ensures Spaced(Next(s, l).triggers)
  {
    TickShape(s.runs, l.workflows, l.handled, s.now, l.fate);
    var t := Next(s, l);
    forall i, j | 0 <= i < j < |t.triggers|
      ensures Apart(t.triggers[i], t.triggers[j])
    {
      if j >= |s.triggers| {
        var b := j - |s.triggers|;
        assert Behind(s.runs, l.workflows, l.handled, s.now, l.fate, b, t.runs[|s.runs| + b], t.triggers[j]);
        if i < |s.triggers| {
          LastRunIsLatest(s.runs, t.triggers[j].workflow);
          assert TriggerStored(s, s.triggers[i]);
        } else {
          var a := i - |s.triggers|;
          assert Behind(s.runs, l.workflows, l.handled, s.now, l.fate, a, t.runs[|s.runs| + a], t.triggers[i]);
        }
      }
    }
  }

  // Over any run, whatever runners do meanwhile: two triggers of a workflow are at least its interval
  // apart, or in different minutes that its cron expression matches, by its schedule at the later one.
  lemma {:induction false} TriggersSpaced(steps: seq<Step>)
    ensures Spaced(After(EMPTY, steps).triggers)
  {
    if steps != [] {
      var m := |steps| - 1;
      TriggersSpaced(steps[..m]);
      ConsistentAfter(EMPTY, steps[..m]);
      if Enabled(After(EMPTY, steps[..m]), steps[m]) && steps[m].Tick? {
        SpacedTick(After(EMPTY, steps[..m]), steps[m]);
      }
    }
  }

  ghost predicate OneActive(runs: seq<Run>) {
    forall i, j | 0 <= i < j < |runs| && runs[i].workflow == runs[j].workflow ::
      !(IsActive(runs[i]) && IsActive(runs[j]))
  }

  // A runner turns to a run that another has ended since it was loaded, while its workflow has an active
  // run again.
  predicate Stale(s: State, l: Step) {
    && l.Start? && l.runner in s.runners && !s.runners[l.runner].started
    && s.runners[l.runner].run.id < |s.runs|
    && !IsActive(s.runs[s.runners[l.runner].run.id])
    && Busy(s.runs, s.runners[l.runner].run.workflow)
  }

  lemma OneActiveTick(s: State, l: Step)
    requires Consistent(s) && Enabled(s, l) && l.Tick? && OneActive(s.runs)
    ensures OneActive(Next(s, l).runs)
  {
    TickShape(s.runs, l.workflows, l.handled, s.now, l.fate);
    var t := Next(s, l);
    forall i, j | 0 <= i < j < |t.runs| && t.runs[i].workflow == t.runs[j].workflow
      ensures !(IsActive(t.runs[i]) && IsActive(t.runs[j]))
    {
      if j >= |s.runs| {
        var b := j - |s.runs|;
        assert Behind(s.runs, l.workflows, l.handled, s.now, l.fate, b, t.runs[j], t.triggers[|s.triggers| + b]);
        assert !Busy(s.runs, t.runs[j].workflow);
      }
    }
  }

  // A step gives a workflow a second active run exactly when it is a stale start.
  lemma OneActiveStep(s: State, l: Step)
    requires Consistent(s) && Enabled(s, l) && OneActive(s.runs)
    ensures OneActive(Next(s, l).runs) <==> !Stale(s, l)
  {
    if l.Tick? {
      OneActiveTick(s, l);
    } else if l.Start? {
      var run := s.runners[l.runner].run;
      StoredInPlace(s.runs, run.(status := Running, startedAt := Some(s.now)));
      var t := Next(s, l);
      if Stale(s, l) {
        var i :| 0 <= i < |s.runs| && IsActive(s.runs[i]) && s.runs[i].workflow == run.workflow;
        assert IsActive(t.runs[i]) && IsActive(t.runs[run.id]) && i != run.id;
        assert if i < run.id then t.runs[i].workflow == t.runs[run.id].workflow
          else t.runs[run.id].workflow == t.runs[i].workflow;
      } else {
        forall i, j | 0 <= i < j < |t.runs| && t.runs[i].workflow == t.runs[j].workflow
          ensures !(IsActive(t.runs[i]) && IsActive(t.runs[j]))
        {
          assert i != run.id && IsActive(t.runs[i]) ==> IsActive(s.runs[i]);
          assert j != run.id && IsActive(t.runs[j]) ==> IsActive(s.runs[j]);
        }
      }
    } else if l.Finish? {
      StoredInPlace(s.runs, s.runners[l.runner].run.(status := if l.ok then Completed else Failed));
    }
  }

  // No runner turns to a run that has ended since.
  ghost predicate NoStaleStart(steps: seq<Step>) {
    steps != [] ==>
      NoStaleStart(steps[..|steps| - 1]) && !Stale(After(EMPTY, steps[..|steps| - 1]), steps[|steps| - 1])
  }

  // Each workflow has at most one run queued or running at any time.
  ghost predicate AlwaysOneActive(steps: seq<Step>) {
    OneActive(After(EMPTY, steps).runs) && (steps != [] ==> AlwaysOneActive(steps[..|steps| - 1]))
  }

  // This is so exactly when no start is stale.
  lemma {:induction false} AtMostOneActive(steps: seq<Step>)
    ensures AlwaysOneActive(steps) <==> NoStaleStart(steps)
  {
    if steps != [] {
      hide OneActive, Stale, Next, Enabled;
      var m := |steps| - 1;
      var s, l := After(EMPTY, steps[..m]), steps[m];
      AtMostOneActive(steps[..m]);
      ConsistentAfter(EMPTY, steps[..m]);
      if AlwaysOneActive(steps[..m]) {
        assert OneActive(s.runs);
        if Enabled(s, l) {
          OneActiveStep(s, l);
        } else {
          NotEnabledNotStale(s, l);
        }
      }
    } else {
      NothingActive();
    }
  }

  lemma NothingActive()
    ensures OneActive(EMPTY.runs)
  {
  }

  lemma NotEnabledNotStale(s: State, l: Step)
    requires !Enabled(s, l)
    ensures !Stale(s, l)
  {
  }

  // ---------------------------------------------------------------- starts and the clock

  ghost predicate StartedByNow(s: State) {
    && (forall i | 0 <= i < |s.runs| && s.runs[i].startedAt.Some? :: s.runs[i].startedAt.value <= s.now)
    && (forall r | r in s.runners && s.runners[r].run.startedAt.Some? :: s.runners[r].run.startedAt.value <= s.now)
  }

  lemma StartedByNowStep(s: State, l: Step)
    requires Consistent(s) && StartedByNow(s) && Enabled(s, l)
    ensures StartedByNow(Next(s, l))
  {
    if l.Tick? {
      TickShape(s.runs, l.workflows, l.handled, s.now, l.fate);
      hide Consistent, NewRuns, NewTriggers;
      var t := Next(s, l);
      forall i | |s.runs| <= i < |t.runs|
        ensures t.runs[i].startedAt.Some? ==> t.runs[i].startedAt.value <= t.now
      {
        var b := i - |s.runs|;
        assert Behind(s.runs, l.workflows, l.handled, s.now, l.fate, b, t.runs[i], t.triggers[|s.triggers| + b]);
      }
    } else if l.Start? {
      StoredInPlace(s.runs, s.runners[l.runner].run.(status := Running, startedAt := Some(s.now)));
    } else if l.Finish? {
      StoredInPlace(s.runs, s.runners[l.runner].run.(status := if l.ok then Completed else Failed));
    }
  }

  // In every history the runs that are stored have started by now, so a later tick sees their starts behind it.
  lemma {:induction false} StartsArePast(steps: seq<Step>)
    ensures StartedByNow(After(EMPTY, steps))
  {
    if steps != [] {
      var m := |steps| - 1;
      var s, l := After(EMPTY, steps[..m]), steps[m];
      StartsArePast(steps[..m]);
      ConsistentAfter(EMPTY, steps[..m]);
      if Enabled(s, l) {
        StartedByNowStep(s, l);
      }
    }
  }

  // ---------------------------------------------------------------- deliveries without stale starts

  // The runs that the queue has delivered.
  function Loads(steps: seq<Step>): set<RunId> {
    if steps == [] then {}
    else Loads(steps[..|steps| - 1]) + if steps[|steps| - 1].Load? then {steps[|steps| - 1].run} else {}
  }

  // No run is delivered twice.
  ghost predicate DeliveredOnce(steps: seq<Step>) {
    steps != [] ==>
      && DeliveredOnce(steps[..|steps| - 1])
      && (steps[|steps| - 1].Load? ==> steps[|steps| - 1].run !in Loads(steps[..|steps| - 1]))
  }

  // Each run has one runner, and it has not ended before that runner has turned to it.
  ghost predicate OneRunner(s: State, loads: set<RunId>) {
    && (forall r | r in s.runners :: s.runners[r].run.id in loads && s.runners[r].run.id < |s.runs|)
    && (forall r, q | r in s.runners && q in s.runners && r != q :: s.runners[r].run.id != s.runners[q].run.id)
    && (forall r | r in s.runners && !s.runners[r].started :: IsActive(s.runs[s.runners[r].run.id]))
  }

  lemma OneRunnerStep(s: State, l: Step, loads: set<RunId>)
    requires Consistent(s) && OneRunner(s, loads) && Enabled(s, l)
    requires l.Load? ==> l.run !in loads
    ensures !Stale(s, l)
    ensures OneRunner(Next(s, l), if l.Load? then loads + {l.run} else loads)
  {
    if l.Start? {
      StoredInPlace(s.runs, s.runners[l.runner].run.(status := Running, startedAt := Some(s.now)));
    } else if l.Finish? {
      StoredInPlace(s.runs, s.runners[l.runner].run.(status := if l.ok then Completed else Failed));
    }
  }

  lemma {:induction false} OneRunnerAfter(steps: seq<Step>)
    requires DeliveredOnce(steps)
    ensures OneRunner(After(EMPTY, steps), Loads(steps)) && NoStaleStart(steps)
  {
    if steps != [] {
      var m := |steps| - 1;
      var s, l := After(EMPTY, steps[..m]), steps[m];
      OneRunnerAfter(steps[..m]);
      ConsistentAfter(EMPTY, steps[..m]);
      if Enabled(s, l) {
        OneRunnerStep(s, l, Loads(steps[..m]));
      }
    }
  }

  // When the queue delivers no run twice, a workflow has at most one active run.
  lemma OneActiveByDelivery(steps: seq<Step>)
    requires DeliveredOnce(steps)
    ensures OneActive(After(EMPTY, steps).runs)
  {
    OneRunnerAfter(steps);
    AtMostOneActive(steps);
  }

  // Whoever loads a run turns to it before anything else happens.
  ghost predicate StartedAtOnce(steps: seq<Step>) {
    |steps| >= 2 ==>
      var m := |steps| - 1;
      && StartedAtOnce(steps[..m])
      && (steps[m - 1].Load? ==> steps[m].Start? && steps[m].runner == steps[m - 1].runner)
  }

  // A runner that has not turned to its run has loaded it just now.
  ghost predicate JustLoaded(s: State, steps: seq<Step>) {
    forall r | r in s.runners && !s.runners[r].started ::
      && steps != [] && steps[|steps| - 1].Load? && steps[|steps| - 1].runner == r
      && s.runners[r].run.id < |s.runs| && IsActive(s.runs[s.runners[r].run.id])
  }

  lemma {:induction false} JustLoadedAfter(steps: seq<Step>)
    requires StartedAtOnce(steps)
    ensures JustLoaded(After(EMPTY, steps), steps) && NoStaleStart(steps)
  {
    if steps != [] {
      var m := |steps| - 1;
      var s, l := After(EMPTY, steps[..m]), steps[m];
      JustLoadedAfter(steps[..m]);
      ConsistentAfter(EMPTY, steps[..m]);
      if Enabled(s, l) {
        JustLoadedStep(s, steps[..m], l);
      }
    }
  }

  lemma JustLoadedStep(s: State, steps: seq<Step>, l: Step)
    requires Consistent(s) && JustLoaded(s, steps) && Enabled(s, l)
    requires steps != [] && steps[|steps| - 1].Load? ==> l.Start? && l.runner == steps[|steps| - 1].runner
    ensures JustLoaded(Next(s, l), steps + [l]) && !Stale(s, l)
  {
    assert (steps + [l])[|steps|] == l;
  }

  // When runs are executed one after the other, a workflow has at most one active run.
  lemma OneActiveInSequence(steps: seq<Step>)
    requires StartedAtOnce(steps)
    ensures OneActive(After(EMPTY, steps).runs)
  {
    JustLoadedAfter(steps);
    AtMostOneActive(steps);
  }

  lemma One(s: State, steps: seq<Step>, l: Step) returns (more: seq<Step>, t: State)
    requires Enabled(After(s, steps), l)
    ensures more == steps + [l] && t == After(s, more) == Next(After(s, steps), l)
  {
    more := steps + [l];
    t := After(s, more);
    assert more[..|steps|] == steps;
  }

  const QUEUED_AT_0 := Run(0, "w", Queued, Some(0))
  const DONE_AT_0 := Run(0, "w", Completed, Some(0))
  const QUEUED_AT_1 := Run(1, "w", Queued, Some(1))
  const EVERY_TIME := Workflow("w", true, Some(Every(1)))

  function QueuedAtOnce(): Fate {
    (w: WorkflowId) => Progress(Queued, 0)
  }

  lemma TickOnce(s: State)
    requires Triggers(s.runs, EVERY_TIME, s.now)
    ensures Enabled(s, Tick([EVERY_TIME], 1, QueuedAtOnce(), 0))
    ensures Next(s, Tick([EVERY_TIME], 1, QueuedAtOnce(), 0)) == State(s.now,
      s.runs + [Run(|s.runs|, "w", Queued, Some(s.now))], s.runners,
      s.triggers + [Trigger("w", s.now, Every(1), |s.runs|)])
  {
    var workflows := [EVERY_TIME];
    assert NewRuns(s.runs, workflows, 0, |s.runs|, s.now, QueuedAtOnce()) == [];
    assert NewTriggers(s.runs, workflows, 0, s.now) == [];
    assert workflows[0] == EVERY_TIME;
  }

  lemma FreeAtFirst()
    ensures Triggers([], EVERY_TIME, 0)
  {
  }

  lemma FreeAgain()
    ensures Triggers([DONE_AT_0], EVERY_TIME, 1)
  {
    assert [DONE_AT_0][..0] == [];
  }

  lemma LoadedTwice() returns (steps: seq<Step>)
    ensures var s := After(EMPTY, steps);
      && s.now == 0 && s.runs == [QUEUED_AT_0]
      && s.runners == map[0 := Runner(QUEUED_AT_0, false), 1 := Runner(QUEUED_AT_0, false)]
  {
    assert After(EMPTY, []) == EMPTY;
    hide After, Triggers;
    var s;
    FreeAtFirst();
    TickOnce(EMPTY);
    steps, s := One(EMPTY, [], Tick([EVERY_TIME], 1, QueuedAtOnce(), 0));
    steps, s := One(EMPTY, steps, Load(0, 0));
    steps, s := One(EMPTY, steps, Load(1, 0));
  }

  lemma EndedOnce() returns (steps: seq<Step>)
    ensures var s := After(EMPTY, steps);
      s.now == 1 && s.runs == [DONE_AT_0] && s.runners == map[1 := Runner(QUEUED_AT_0, false)]
  {
    hide After;
    var s;
    steps := LoadedTwice();
    StoredInPlace([QUEUED_AT_0], Run(0, "w", Running, Some(0)));
    steps, s := One(EMPTY, steps, Start(0));
    assert s.runs == [Run(0, "w", Running, Some(0))];
    StoredInPlace(s.runs, DONE_AT_0);
    steps, s := One(EMPTY, steps, Finish(0, true));
    assert s.runs == [DONE_AT_0];
    steps, s := One(EMPTY, steps, Wait(1));
  }

  // Two runners have loaded the same run; the first ends it, the workflow is started again, and the
  // second turns to its old run: now two runs of the workflow are active.
  lemma StaleStartExample() returns (steps: seq<Step>)
    ensures !OneActive(After(EMPTY, steps).runs)
  {
    hide After, Triggers;
    var s;
    steps := EndedOnce();
    FreeAgain();
    TickOnce(After(EMPTY, steps));
    steps, s := One(EMPTY, steps, Tick([EVERY_TIME], 1, QueuedAtOnce(), 0));
    assert s.runs == [DONE_AT_0, QUEUED_AT_1];
    StoredInPlace(s.runs, Run(0, "w", Running, Some(1)));
    steps, s := One(EMPTY, steps, Start(1));
    assert s.runs[0] == Run(0, "w", Running, Some(1)) && s.runs[1] == QUEUED_AT_1;
    assert s.runs[0].workflow == s.runs[1].workflow && IsActive(s.runs[0]) && IsActive(s.runs[1]);
  }

  lemma Loaded(s: State, r: nat, k: RunId)
    requires r !in s.runners && k < |s.runs| && (s.runs[k].status == Queued || s.runs[k].status == Running)
    ensures Enabled(s, Load(r, k)) && Next(s, Load(r, k)) == s.(runners := s.runners[r := Runner(s.runs[k], false)])
  {
  }

  lemma StartedInPlace(s: State, r: nat, run: Run)
    requires (forall i | 0 <= i < |s.runs| :: s.runs[i].id == i) && run.id < |s.runs|
    requires r in s.runners && s.runners[r] == Runner(run, false)
    ensures var running := run.(status := Running, startedAt := Some(s.now));
      && Enabled(s, Start(r))
      && Next(s, Start(r)) ==
           s.(runs := s.runs[run.id := running], runners := s.runners[r := Runner(running, true)])
  {
    StoredInPlace(s.runs, run.(status := Running, startedAt := Some(s.now)));
  }

  lemma FinishedInPlace(s: State, r: nat, run: Run, ok: bool)
    requires (forall i | 0 <= i < |s.runs| :: s.runs[i].id == i) && run.id < |s.runs|
    requires r in s.runners && s.runners[r] == Runner(run, true)
    ensures Enabled(s, Finish(r, ok))
    ensures Next(s, Finish(r, ok)) == s.(
      runs := s.runs[run.id := run.(status := if ok then Completed else Failed)], runners := s.runners - {r})
  {
    StoredInPlace(s.runs, run.(status := if ok then Completed else Failed));
  }

  lemma ThreeSteps(s: State, a: Step, b: Step, c: Step)
    requires Enabled(s, a) && Enabled(Next(s, a), b) && Enabled(Next(Next(s, a), b), c)
    ensures After(s, [a, b, c]) == Next(Next(Next(s, a), b), c)
  {
    hide Next, Enabled;
    assert After(s, []) == s;
    assert [a][..0] == [] && After(s, [a]) == Next(s, a);
    assert [a, b][..1] == [a] && After(s, [a, b]) == Next(Next(s, a), b);
    assert [a, b, c][..2] == [a, b];
  }

  // A run that is delivered and executed without interruption ends as its steps say.
  lemma DeliveredRunEnds(s: State, r: nat, k: RunId, ok: bool)
    requires Consistent(s) && r !in s.runners && k < |s.runs|
    requires s.runs[k].status == Queued || s.runs[k].status == Running
    ensures After(s, [Load(r, k), Start(r), Finish(r, ok)]) == s.(runs :=
      s.runs[k := s.runs[k].(status := if ok then Completed else Failed, startedAt := Some(s.now))])
  {
    assert forall i | 0 <= i < |s.runs| :: s.runs[i].id == i;
    hide After, Consistent, Next, Enabled;
    Loaded(s, r, k);
    var t := Next(s, Load(r, k));
    StartedInPlace(t, r, s.runs[k]);
    var u := Next(t, Start(r));
    FinishedInPlace(u, r, s.runs[k].(status := Running, startedAt := Some(s.now)), ok);
    ThreeSteps(s, Load(r, k), Start(r), Finish(r, ok));
    assert Next(u, Finish(r, ok)).runners == s.runners;
  }

  // A run whose runner has stopped, or that never reached the queue, holds up its workflow for good: as
  // long as no one finishes it, no tick starts the workflow again.
  lemma {:induction false} StuckForGood(s: State, steps: seq<Step>, k: RunId)
    requires Consistent(s) && k < |s.runs| && IsActive(s.runs[k])
    requires forall i | 0 <= i < |steps| && steps[i].Finish? ::
      var before := After(s, steps[..i]);
      steps[i].runner in before.runners ==> before.runners[steps[i].runner].run.id != k
    ensures var t := After(s, steps);
      && k < |t.runs| && IsActive(t.runs[k]) && t.runs[k].workflow == s.runs[k].workflow
      && |t.triggers| >= |s.triggers|
      && forall i | |s.triggers| <= i < |t.triggers| :: t.triggers[i].workflow != s.runs[k].workflow
  {
    if steps != [] {
      var m := |steps| - 1;
      var before, l := After(s, steps[..m]), steps[m];
      assert forall i | 0 <= i < m :: steps[..m][..i] == steps[..i];
      StuckForGood(s, steps[..m], k);
      ConsistentAfter(s, steps[..m]);
      if Enabled(before, l) {
        StuckStep(before, l, k);
      }
    }
  }

  lemma StuckStep(s: State, l: Step, k: RunId)
    requires Consistent(s) && Enabled(s, l) && k < |s.runs| && IsActive(s.runs[k])
    requires l.Finish? ==> s.runners[l.runner].run.id != k
    ensures var t := Next(s, l);
      && k < |t.runs| && IsActive(t.runs[k]) && t.runs[k].workflow == s.runs[k].workflow
      && s.triggers <= t.triggers
      && forall i | |s.triggers| <= i < |t.triggers| :: t.triggers[i].workflow != s.runs[k].workflow
  {
    if l.Tick? {
      TickShape(s.runs, l.workflows, l.handled, s.now, l.fate);
      var t := Next(s, l);
      forall i | |s.triggers| <= i < |t.triggers|
        ensures t.triggers[i].workflow != s.runs[k].workflow
      {
        var b := i - |s.triggers|;
        assert Behind(s.runs, l.workflows, l.handled, s.now, l.fate, b, t.runs[|s.runs| + b], t.triggers[i]);
        assert Busy(s.runs, s.runs[k].workflow);
      }
    } else if l.Start? {
      StoredInPlace(s.runs, s.runners[l.runner].run.(status := Running, startedAt := Some(s.now)));
    } else if l.Finish? {
      StoredInPlace(s.runs, s.runners[l.runner].run.(status := if l.ok then Completed else Failed));
    }
  }
}
