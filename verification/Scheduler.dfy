// The tick that starts due workflows, and the execution of their runs (gcp_adapter/workflow_service.py
// and retikon_core/workflows/store.py).

module Scheduler {
  import opened Optionals
  import opened Sequences

  // In microseconds.
  type Time = int

  const MINUTE := 60_000_000

  type WorkflowId = string
  type RunId = nat

  // A schedule text is an interval ("every 5m", "@hourly"), a cron expression, here the minutes that it
  // matches, or neither.
  datatype Schedule = Every(period: int) | Cron(matches: int -> bool) | Never

  datatype Workflow = Workflow(id: WorkflowId, enabled: bool, schedule: Option<Schedule>)

  datatype Status = Queued | Running | Completed | Failed

  datatype Run = Run(id: RunId, workflow: WorkflowId, status: Status, startedAt: Option<Time>)

  predicate IsActive(r: Run) {
    r.status == Queued || r.status == Running
  }

  function Minute(t: Time): int {
    t / MINUTE
  }

  function Due(schedule: Schedule, lastRun: Option<Time>, now: Time): bool {
    match schedule
    case Every(period) => lastRun.None? || now - lastRun.value >= period
    case Cron(matches) => matches(Minute(now)) && (lastRun.None? || Minute(lastRun.value) < Minute(now))
    case Never => false
  }

  function Later(a: Option<Time>, b: Option<Time>): Option<Time> {
    if a.None? || (b.Some? && b.value > a.value) then b else a
  }

  // When the latest run of a workflow started.
  function LastRun(runs: seq<Run>, w: WorkflowId): Option<Time> {
    if runs == [] then None
    else
      var r := runs[|runs| - 1];
      var before := LastRun(runs[..|runs| - 1], w);
      if r.workflow == w then Later(before, r.startedAt) else before
  }

  lemma {:induction false} LastRunIsLatest(runs: seq<Run>, w: WorkflowId)
    ensures forall i | 0 <= i < |runs| && runs[i].workflow == w && runs[i].startedAt.Some? ::
      LastRun(runs, w).Some? && runs[i].startedAt.value <= LastRun(runs, w).value
    ensures LastRun(runs, w).Some? ==>
      exists i | 0 <= i < |runs| :: runs[i].workflow == w && runs[i].startedAt == LastRun(runs, w)
  {
    if runs != [] {
      var m := |runs| - 1;
      LastRunIsLatest(runs[..m], w);
      assert forall i | 0 <= i < m :: runs[..m][i] == runs[i];
    }
  }

  predicate Busy(runs: seq<Run>, w: WorkflowId) {
    exists i | 0 <= i < |runs| :: IsActive(runs[i]) && runs[i].workflow == w
  }

  predicate Scheduled(w: Workflow) {
    w.enabled && w.schedule.Some?
  }

  // A tick starts a workflow that is scheduled, has no run queued or running, and is due.
  predicate Triggers(runs: seq<Run>, w: Workflow, now: Time) {
    Scheduled(w) && !Busy(runs, w.id) && Due(w.schedule.value, LastRun(runs, w.id), now)
  }

  // The same read off the stored runs: no run is queued or running, and none has started within the
  // interval, or the minute is one that the cron expression matches and none has started in it or later.
  ghost predicate MustStart(runs: seq<Run>, w: Workflow, now: Time) {
    && w.enabled && w.schedule.Some?
    && (forall r | r in runs && r.workflow == w.id :: r.status != Queued && r.status != Running)
    && match w.schedule.value
       case Every(period) =>
         forall r | r in runs && r.workflow == w.id && r.startedAt.Some? :: now - r.startedAt.value >= period
       case Cron(matches) =>
         && matches(now / 60_000_000)
         && forall r | r in runs && r.workflow == w.id && r.startedAt.Some? ::
              r.startedAt.value / 60_000_000 < now / 60_000_000
       case Never => false
  }

  ghost predicate MustWait(runs: seq<Run>, w: Workflow) {
    && w.enabled && w.schedule.Some?
    && exists r | r in runs :: r.workflow == w.id && (r.status == Queued || r.status == Running)
  }

  lemma TriggersExactly(runs: seq<Run>, w: Workflow, now: Time)
    ensures Triggers(runs, w, now) <==> MustStart(runs, w, now)
  {
    if Scheduled(w) {
      BusyExactly(runs, w.id);
      DueExactly(runs, w.id, w.schedule.value, now);
    }
  }

  lemma BusyExactly(runs: seq<Run>, w: WorkflowId)
    ensures Busy(runs, w) <==> exists r :: r in runs && r.workflow == w && (r.status == Queued || r.status == Running)
  {
    if r :| r in runs && r.workflow == w && (r.status == Queued || r.status == Running) {
      var i :| 0 <= i < |runs| && runs[i] == r;
      assert IsActive(runs[i]) && runs[i].workflow == w;
    }
  }

  lemma DueExactly(runs: seq<Run>, w: WorkflowId, schedule: Schedule, now: Time)
    ensures Due(schedule, LastRun(runs, w), now) <==>
      match schedule
      case Every(period) =>
        forall r | r in runs && r.workflow == w && r.startedAt.Some? :: now - r.startedAt.value >= period
      case Cron(matches) =>
        && matches(now / 60_000_000)
        && forall r | r in runs && r.workflow == w && r.startedAt.Some? ::
             r.startedAt.value / 60_000_000 < now / 60_000_000
      case Never => false
  {
    hide LastRun;
    LastRunIsLatest(runs, w);
    var last := LastRun(runs, w);
    if last.Some? {
      var i :| 0 <= i < |runs| && runs[i].workflow == w && runs[i].startedAt == last;
      assert runs[i] in runs;
      forall r | r in runs && r.workflow == w && r.startedAt.Some?
        ensures r.startedAt.value <= last.value && Minute(r.startedAt.value) <= Minute(last.value)
      {
        var j :| 0 <= j < |runs| && runs[j] == r;
      }
    }
  }

  // How far the run of a workflow has got when the tick turns to the next one, and the time that it
  // started, counted from the tick. A run that goes to a queue stays queued.
  datatype Progress = Progress(status: Status, lag: nat)

  type Fate = WorkflowId -> Progress

  function NewRun(w: WorkflowId, id: RunId, now: Time, fate: Fate): Run {
    Run(id, w, fate(w).status, Some(now + fate(w).lag))
  }

  // The runs that a tick adds for the first n workflows.
  function NewRuns(runs: seq<Run>, workflows: seq<Workflow>, n: nat, nextId: RunId, now: Time, fate: Fate): seq<Run>
    requires n <= |workflows|
  {
    if n == 0 then []
    else
      var before := NewRuns(runs, workflows, n - 1, nextId, now, fate);
      before +
      if Triggers(runs, workflows[n - 1], now) then [NewRun(workflows[n - 1].id, nextId + |before|, now, fate)] else []
  }

  // Those of them that are passed over because a run is still active.
  function Skipped(runs: seq<Run>, workflows: seq<Workflow>, n: nat): nat
    requires n <= |workflows|
  {
    if n == 0 then 0
    else
      Skipped(runs, workflows, n - 1) +
      if Scheduled(workflows[n - 1]) && Busy(runs, workflows[n - 1].id) then 1 else 0
  }

  // The workflows that a tick would start.
  function DueIds(runs: seq<Run>, workflows: seq<Workflow>, n: nat, now: Time): seq<WorkflowId>
    requires n <= |workflows|
  {
    if n == 0 then []
    else
      DueIds(runs, workflows, n - 1, now) +
      if Triggers(runs, workflows[n - 1], now) then [workflows[n - 1].id] else []
  }

  // The workflows that a tick has to start, and those that it passes over.
  ghost function ToStart(runs: seq<Run>, workflows: seq<Workflow>, now: Time): seq<Workflow> {
    Where(workflows, w => MustStart(runs, w, now))
  }

  ghost function ToWait(runs: seq<Run>, workflows: seq<Workflow>): seq<Workflow> {
    Where(workflows, w => MustWait(runs, w))
  }

  lemma OneMore(runs: seq<Run>, workflows: seq<Workflow>, n: nat, now: Time)
    requires 0 < n <= |workflows|
    ensures ToStart(runs, workflows[..n], now) == ToStart(runs, workflows[..n - 1], now) +
      if Triggers(runs, workflows[n - 1], now) then [workflows[n - 1]] else []
    ensures |ToWait(runs, workflows[..n])| == |ToWait(runs, workflows[..n - 1])| +
      if Scheduled(workflows[n - 1]) && Busy(runs, workflows[n - 1].id) then 1 else 0
  {
    hide MustStart, MustWait, Triggers, Busy;
    assert workflows[..n][..n - 1] == workflows[..n - 1];
    TriggersExactly(runs, workflows[n - 1], now);
    WaitsExactly(runs, workflows[n - 1]);
  }

  lemma WaitsExactly(runs: seq<Run>, w: Workflow)
    ensures Scheduled(w) && Busy(runs, w.id) <==> MustWait(runs, w)
  {
    BusyExactly(runs, w.id);
  }

  ghost predicate RunsOf(due: seq<Workflow>, firstId: RunId, now: Time, fate: Fate, added: seq<Run>) {
    && |added| == |due|
    && forall i | 0 <= i < |due| ::
         added[i] == Run(firstId + i, due[i].id, fate(due[i].id).status, Some(now + fate(due[i].id).lag))
  }

  // A tick starts exactly the workflows that it has to, in order, ...
  lemma {:induction false} TickExactly(
      runs: seq<Run>, workflows: seq<Workflow>, n: nat, firstId: RunId, now: Time, fate: Fate)
    requires n <= |workflows|
    ensures RunsOf(ToStart(runs, workflows[..n], now), firstId, now, fate,
      NewRuns(runs, workflows, n, firstId, now, fate))
  {
    hide ToStart, ToWait, Triggers, Busy;
    if n > 0 {
      TickExactly(runs, workflows, n - 1, firstId, now, fate);
      OneMore(runs, workflows, n, now);
    } else {
      NoneToStart(runs, workflows, now);
    }
  }

  // ... a dry run names them, and the others that are scheduled are passed over.
  lemma {:induction false} DryRunExactly(runs: seq<Run>, workflows: seq<Workflow>, n: nat, now: Time)
    requires n <= |workflows|
    ensures var due, ids := ToStart(runs, workflows[..n], now), DueIds(runs, workflows, n, now);
      |ids| == |due| && forall i | 0 <= i < |due| :: ids[i] == due[i].id
    ensures Skipped(runs, workflows, n) == |ToWait(runs, workflows[..n])|
  {
    hide ToStart, ToWait, Triggers, Busy;
    if n > 0 {
      DryRunExactly(runs, workflows, n - 1, now);
      OneMore(runs, workflows, n, now);
    } else {
      NoneToStart(runs, workflows, now);
    }
  }

  lemma NoneToStart(runs: seq<Run>, workflows: seq<Workflow>, now: Time)
    ensures ToStart(runs, workflows[..0], now) == [] && ToWait(runs, workflows[..0]) == []
  {
  }

  // The stored runs with r in the place of the run of its name, or at the end.
  function Stored(runs: seq<Run>, r: Run): seq<Run> {
    Replaced(runs, r) + if exists i | 0 <= i < |runs| :: runs[i].id == r.id then [] else [r]
  }

  function Replaced(runs: seq<Run>, r: Run): seq<Run> {
    seq(|runs|, i requires 0 <= i < |runs| => if runs[i].id == r.id then r else runs[i])
  }

  ghost predicate Fresh(runs: seq<Run>, nextId: RunId) {
    forall i | 0 <= i < |runs| :: runs[i].id < nextId
  }

  class WorkflowService {
    var runs: seq<Run>
    var nextId: RunId    // names not given to any run yet

    constructor ()
      ensures runs == [] && nextId == 0
    {
      runs, nextId := [], 0;
    }

    method RegisterRun(w: WorkflowId, status: Status, startedAt: Time) returns (r: Run)
      modifies this
      ensures r == Run(old(nextId), w, status, Some(startedAt))
      ensures runs == old(runs) + [r] && nextId == old(nextId) + 1
    {
      r := Run(nextId, w, status, Some(startedAt));
      runs, nextId := runs + [r], nextId + 1;
    }

    // Rewrites the list of runs.
    method UpdateRun(r: Run)
      modifies `runs
      ensures runs == Stored(old(runs), r)
    {
      var updated: seq<Run>, found := [], false;
      for i := 0 to |runs|
        invariant updated == Replaced(old(runs), r)[..i]
        invariant runs == old(runs)
        invariant found <==> exists j | 0 <= j < i :: runs[j].id == r.id
      {
        if runs[i].id == r.id {
          updated, found := updated + [r], true;
        } else {
          updated := updated + [runs[i]];
        }
      }
      if !found {
        updated := updated + [r];
      }
      runs := updated;
    }

    // Runs the steps; steps says which of them succeed. A run that has ended is left alone.
    method ExecuteRun(r: Run, steps: seq<bool>, startedAt: Time) returns (result: Run)
      modifies `runs
      ensures r.status == Completed || r.status == Failed ==> result == r && runs == old(runs)
      ensures IsActive(r) ==>
        && result == r.(status := if false in steps then Failed else Completed, startedAt := Some(startedAt))
        && runs == Stored(Stored(old(runs), r.(status := Running, startedAt := Some(startedAt))), result)
    {
      if r.status == Completed || r.status == Failed {
        return r;
      }
      var running := r.(status := Running, startedAt := Some(startedAt));
      UpdateRun(running);
      var failed, i := false, 0;
      while i < |steps|
        invariant 0 <= i <= |steps|
        invariant failed <==> false in steps[..i]
        invariant runs == Stored(old(runs), running)
      {
        assert steps[..i + 1] == steps[..i] + [steps[i]];
        if !steps[i] {
          failed := true;
          break;
        }
        i := i + 1;
      }
      assert failed <==> false in steps by {
        assert steps[..|steps|] == steps;
      }
      result := running.(status := if failed then Failed else Completed);
      UpdateRun(result);
    }

    // When the latest run of each workflow started.
    method LastRuns() returns (last: map<WorkflowId, Time>)
      ensures forall w :: w in last <==> LastRun(runs, w).Some?
      ensures forall w | w in last :: last[w] == LastRun(runs, w).value
    {
      last := map[];
      for i := 0 to |runs|
        invariant forall w :: w in last <==> LastRun(runs[..i], w).Some?
        invariant forall w | w in last :: last[w] == LastRun(runs[..i], w).value
      {
        assert runs[..i + 1][..i] == runs[..i];
        var r := runs[i];
        if r.startedAt.Some? && (r.workflow !in last || r.startedAt.value > last[r.workflow]) {
          last := last[r.workflow := r.startedAt.value];
        }
      }
      assert runs[..|runs|] == runs;
    }

    // Registers a run and hands it to the queue, or executes it.
    method StartRun(w: WorkflowId, now: Time, queue: bool, lag: nat, steps: seq<bool>) returns (r: Run)
      requires Fresh(runs, nextId)
      modifies this
      ensures r == Run(old(nextId), w, EndStatus(queue, steps), Some(now + lag))
      ensures runs == old(runs) + [r] && nextId == old(nextId) + 1 && Fresh(runs, nextId)
    {
      r := RegisterRun(w, Queued, now + lag);
      if !queue {
        StoredLast(old(runs), r, r.(status := Running));
        StoredLast(old(runs), r.(status := Running), r.(status := EndStatus(queue, steps)));
        r := ExecuteRun(r, steps, now + lag);
      }
    }

    // What a tick has done when it has come to the n-th workflow.
    ghost predicate TickedTo(
        before: seq<Run>, workflows: seq<Workflow>, n: nat, firstId: RunId, now: Time, fate: Fate, runIds: seq<RunId>)
      requires n <= |workflows|
      reads this
    {
      var added := NewRuns(before, workflows, n, firstId, now, fate);
      && runs == before + added && nextId == firstId + |added|
      && |runIds| == |added| && (forall i | 0 <= i < |added| :: runIds[i] == added[i].id)
    }

    // One tick. With a queue, runs are handed on as queued; otherwise each is executed before the next
    // workflow, started lag(w) after the tick and with the steps steps(w).
    method ScheduleTick(
        workflows: seq<Workflow>, now: Time, dryRun: bool, queue: bool,
        lag: WorkflowId -> nat, steps: WorkflowId -> seq<bool>)
      returns (triggered: nat, skipped: nat, runIds: seq<RunId>, workflowIds: seq<WorkflowId>)
      requires Fresh(runs, nextId)
      modifies this
      ensures Fresh(runs, nextId)
      ensures triggered == |runIds| + |workflowIds| && skipped == Skipped(old(runs), workflows, |workflows|)
      ensures dryRun ==>
        && runs == old(runs) && nextId == old(nextId)
        && workflowIds == DueIds(runs, workflows, |workflows|, now) && runIds == []
      ensures !dryRun ==>
        && TickedTo(old(runs), workflows, |workflows|, old(nextId), now, FateOf(queue, lag, steps), runIds)
        && workflowIds == []
    {
      var active := set r | r in runs && IsActive(r) :: r.workflow;
      var last := LastRuns();
      triggered, skipped, runIds, workflowIds := 0, 0, [], [];
      for n := 0 to |workflows|
        invariant Fresh(runs, nextId)
        invariant skipped == Skipped(old(runs), workflows, n)
        invariant dryRun ==>
          && runs == old(runs) && nextId == old(nextId)
          && workflowIds == DueIds(runs, workflows, n, now) && runIds == []
        invariant !dryRun ==>
          && TickedTo(old(runs), workflows, n, old(nextId), now, FateOf(queue, lag, steps), runIds)
          && workflowIds == []
      {
        hide LastRun, Busy, Due, Fresh;
        var w := workflows[n];
        ActiveIsBusy(old(runs), w.id);
        if Scheduled(w) {
          var lastRun := if w.id in last then Some(last[w.id]) else None;
          if w.id in active {
            skipped := skipped + 1;
          } else if Due(w.schedule.value, lastRun, now) {
            if dryRun {
              workflowIds := workflowIds + [w.id];
            } else {
              var r := StartRun(w.id, now, queue, lag(w.id), steps(w.id));
              runIds := runIds + [r.id];
            }
          }
        }
      }
      triggered := |runIds| + |workflowIds|;
    }
  }

  function EndStatus(queue: bool, steps: seq<bool>): Status {
    if queue then Queued else if false in steps then Failed else Completed
  }

  function FateOf(queue: bool, lag: WorkflowId -> nat, steps: WorkflowId -> seq<bool>): Fate {
    (w: WorkflowId) =>
      Progress(EndStatus(queue, steps(w)), lag(w))
  }

  lemma ActiveIsBusy(runs: seq<Run>, w: WorkflowId)
    ensures w in (set r | r in runs && IsActive(r) :: r.workflow) <==> Busy(runs, w)
  {
    if Busy(runs, w) {
      var i :| 0 <= i < |runs| && IsActive(runs[i]) && runs[i].workflow == w;
      assert runs[i] in runs;
    }
  }

  // Storing the run of the latest name changes the last one only.
  lemma StoredLast(runs: seq<Run>, r: Run, next: Run)
    requires Fresh(runs, r.id) && next.id == r.id
    ensures Stored(runs + [r], next) == runs + [next]
  {
    assert (runs + [r])[|runs|].id == next.id;
  }
}
