/**
 * Records of the task cycles: what one cycle writes into its history entry
 * (one outcome per planned task, in plan order), how the history is capped,
 * and how a cycle error marks the current entry failed.  Times come from an
 * abstract clock; a duration is `end - start`.
 */
module History {
  import opened Wrappers

  datatype Status = InProgress | Completed | Failed

  /** One task outcome; `error` is present only on failed outcomes. */
  datatype TaskRecord = TaskRecord(name: string, startTime: int, endTime: int, duration: int, error: Option<string>)

  /** `TaskHistoryEntry`. */
  datatype HistoryEntry = HistoryEntry(
    startTime: int,
    endTime: Option<int>,
    taskPlan: seq<string>,
    completedTasks: seq<TaskRecord>,
    failedTasks: seq<TaskRecord>,
    status: Status,
    duration: Option<int>)

  /** How many cycles the history keeps. */
  const MaxHistory: nat := 100

  // ---------------------------------------------------------------- running a plan

  /** The task names the cycle's `switch` has a case for. */
  const KnownTasks: set<string> :=
    {"readChatAndReply", "generateFreshThought", "generatePeriodicAnimation",
     "startStructuredStory", "startStructuredContentGeneration"}

  /**
   * Whether running the task can reject.  Every handler but the story driver
   * catches its own errors, and a name without a case runs nothing at all.
   */
  predicate MayThrow(name: string)
  {
    name == "startStructuredStory"
  }

  /** What the clock and the handler did for one task: start, end, and the rejection if any. */
  datatype TaskRun = TaskRun(startTime: int, endTime: int, error: Option<string>)

  /** The outcome the cycle records for one task. */
  function RecordOf(name: string, run: TaskRun): (r: TaskRecord)
    ensures r.name == name && r.duration == run.endTime - run.startTime
    ensures r.error.Some? ==> MayThrow(name)
  {
    TaskRecord(name, run.startTime, run.endTime, run.endTime - run.startTime,
               if MayThrow(name) then run.error else None)
  }

  /** The outcomes of a plan, one per task and in plan order. */
  function PlanRecords(plan: seq<string>, runs: seq<TaskRun>): (r: seq<TaskRecord>)
    requires |runs| == |plan|
    ensures |r| == |plan|
    ensures forall i :: 0 <= i < |plan| ==> r[i] == RecordOf(plan[i], runs[i])
  {
    seq(|plan|, i requires 0 <= i < |plan| => RecordOf(plan[i], runs[i]))
  }

  /** The runs of the first `n` tasks, as the clock and the handlers produce them. */
  function RunsOf(n: nat, run: nat -> TaskRun): (r: seq<TaskRun>)
    ensures |r| == n && forall k :: 0 <= k < n ==> r[k] == run(k)
  {
    seq(n, k requires 0 <= k < n => run(k))
  }

  lemma RunsOfStep(n: nat, run: nat -> TaskRun)
    ensures RunsOf(n + 1, run) == RunsOf(n, run) + [run(n)]
  {
  }

  /** Running one more task adds its outcome at the end. */
  lemma PlanRecordsStep(plan: seq<string>, runs: seq<TaskRun>, i: nat, r: TaskRun)
    requires i < |plan| && |runs| == i
    ensures PlanRecords(plan[..i + 1], runs + [r]) == PlanRecords(plan[..i], runs) + [RecordOf(plan[i], r)]
  {
  }

  /** The outcomes that succeeded, in order. */
  function Succeeded(rs: seq<TaskRecord>): (r: seq<TaskRecord>)
    ensures forall x :: x in r ==> x in rs && x.error.None?
  {
    if rs == [] then []
    else
      var init := Succeeded(rs[..|rs| - 1]);
      if rs[|rs| - 1].error.None? then init + [rs[|rs| - 1]] else init
  }

  /** The outcomes that failed, in order. */
  function FailedOf(rs: seq<TaskRecord>): (r: seq<TaskRecord>)
    ensures forall x :: x in r ==> x in rs && x.error.Some?
  {
    if rs == [] then []
    else
      var init := FailedOf(rs[..|rs| - 1]);
      if rs[|rs| - 1].error.Some? then init + [rs[|rs| - 1]] else init
  }

  /** A new outcome joins the list its error says. */
  lemma RecordJoins(done: seq<TaskRecord>, rec: TaskRecord)
    ensures Succeeded(done + [rec]) == if rec.error.None? then Succeeded(done) + [rec] else Succeeded(done)
    ensures FailedOf(done + [rec]) == if rec.error.Some? then FailedOf(done) + [rec] else FailedOf(done)
  {
    assert (done + [rec])[..|done|] == done;
  }

  /** Every outcome lands in exactly one of the two lists. */
  lemma {:induction false} PartitionSizes(rs: seq<TaskRecord>)
    ensures |Succeeded(rs)| + |FailedOf(rs)| == |rs|
    decreases |rs|
  {
    if rs != [] {
      PartitionSizes(rs[..|rs| - 1]);
    }
  }

  /** A successful outcome is found among the successes. */
  lemma {:induction false} SucceededKeeps(rs: seq<TaskRecord>, i: nat)
    requires i < |rs| && rs[i].error.None?
    ensures rs[i] in Succeeded(rs)
    decreases |rs|
  {
    if i < |rs| - 1 {
      SucceededKeeps(rs[..|rs| - 1], i);
    }
  }

  /** The entry of a cycle still in progress, once the tasks with outcomes `records` have run. */
  function OpenEntry(startTime: int, plan: seq<string>, records: seq<TaskRecord>): (e: HistoryEntry)
    ensures e.status == InProgress && e.endTime.None? && e.duration.None?
    ensures |e.completedTasks| + |e.failedTasks| == |records|
  {
    PartitionSizes(records);
    HistoryEntry(startTime, None, plan, Succeeded(records), FailedOf(records), InProgress, None)
  }

  /**
   * Running the i-th task appends its outcome to the failed tasks when it
   * carries an error and to the completed tasks otherwise.
   */
  lemma OpenEntryStep(startTime: int, plan: seq<string>, run: nat -> TaskRun, i: nat)
    requires i < |plan|
    ensures var e := OpenEntry(startTime, plan, PlanRecords(plan[..i], RunsOf(i, run)));
            var rec := RecordOf(plan[i], run(i));
            OpenEntry(startTime, plan, PlanRecords(plan[..i + 1], RunsOf(i + 1, run)))
              == if rec.error.Some? then e.(failedTasks := e.failedTasks + [rec])
                 else e.(completedTasks := e.completedTasks + [rec])
  {
    var done := PlanRecords(plan[..i], RunsOf(i, run));
    RunsOfStep(i, run);
    PlanRecordsStep(plan, RunsOf(i, run), i, run(i));
    RecordJoins(done, RecordOf(plan[i], run(i)));
  }

  /** The entry of a cycle whose every task ran: status completed, one outcome per task. */
  function FinishedEntry(startTime: int, endTime: int, plan: seq<string>, runs: seq<TaskRun>): (e: HistoryEntry)
    requires |runs| == |plan|
  {
    var records := PlanRecords(plan, runs);
    HistoryEntry(startTime, Some(endTime), plan, Succeeded(records), FailedOf(records),
                 Completed, Some(endTime - startTime))
  }

  /**
   * A finished cycle accounts for its whole plan: completed plus failed is the
   * plan's length, the plan is kept as given, and only the story task can fail.
   */
  lemma FinishedEntryAccounts(startTime: int, endTime: int, plan: seq<string>, runs: seq<TaskRun>)
    requires |runs| == |plan|
    ensures var e := FinishedEntry(startTime, endTime, plan, runs);
            && e.status == Completed && e.taskPlan == plan
            && |e.completedTasks| + |e.failedTasks| == |plan|
            && (forall r :: r in e.failedTasks ==> r.name == "startStructuredStory")
            && e.duration == Some(endTime - startTime)
  {
    PartitionSizes(PlanRecords(plan, runs));
  }

  /** A name the `switch` does not know is recorded as completed, not skipped. */
  lemma UnknownTaskCompletes(startTime: int, endTime: int, plan: seq<string>, runs: seq<TaskRun>, i: nat)
    requires |runs| == |plan| && i < |plan| && plan[i] !in KnownTasks
    ensures RecordOf(plan[i], runs[i]) in FinishedEntry(startTime, endTime, plan, runs).completedTasks
  {
    assert !MayThrow(plan[i]);
    SucceededKeeps(PlanRecords(plan, runs), i);
  }

  /** `taskHistory.slice(-100)` once the history holds more than a hundred entries. */
  function KeepLast(h: seq<HistoryEntry>): (r: seq<HistoryEntry>)
    ensures |r| == if |h| > MaxHistory then MaxHistory else |h|
    ensures r == h[|h| - |r|..]
  {
    if |h| > MaxHistory then h[|h| - MaxHistory..] else h
  }

  /** Capping keeps the newest entry as the newest entry. */
  lemma KeepLastKeepsNewest(h: seq<HistoryEntry>, e: HistoryEntry)
    ensures var r := KeepLast(h + [e]); r != [] && r[|r| - 1] == e && |r| <= MaxHistory
  {
  }

  /**
   * The cycle's error handler: the last entry, if it is still in progress, is
   * closed as failed at `now`; every other case leaves the history alone.
   */
  function MarkCurrentFailed(h: seq<HistoryEntry>, now: int): (r: seq<HistoryEntry>)
    ensures |r| == |h|
  {
    if h != [] && h[|h| - 1].status == InProgress then
      var e := h[|h| - 1];
      h[..|h| - 1] + [e.(endTime := Some(now), status := Failed, duration := Some(now - e.startTime))]
    else h
  }

  lemma MarkCurrentFailedTouchesOnlyLast(h: seq<HistoryEntry>, now: int)
    ensures var r := MarkCurrentFailed(h, now);
            && |r| == |h|
            && (forall i :: 0 <= i < |h| - 1 ==> r[i] == h[i])
            && (h == [] || h[|h| - 1].status != InProgress ==> r == h)
            && (h != [] && h[|h| - 1].status == InProgress ==>
                  var e, f := h[|h| - 1], r[|h| - 1];
                  && f.status == Failed && f.endTime == Some(now)
                  && f.taskPlan == e.taskPlan && f.completedTasks == e.completedTasks
                  && f.failedTasks == e.failedTasks && f.startTime == e.startTime)
  {
  }

  /**
   * The history between cycles: at most a hundred entries, none still in
   * progress, every completed entry has one outcome per planned task, and
   * only the story task appears among the failures.
   */
  ghost predicate HistoryInvariant(h: seq<HistoryEntry>)
  {
    && |h| <= MaxHistory
    && forall i :: 0 <= i < |h| ==>
         && h[i].status != InProgress
         && (h[i].status == Completed ==> |h[i].completedTasks| + |h[i].failedTasks| == |h[i].taskPlan|)
         && (forall r :: r in h[i].failedTasks ==> MayThrow(r.name))
  }

  /** Between cycles nothing is in progress, so a cycle error changes no entry. */
  lemma CycleErrorChangesNothing(h: seq<HistoryEntry>, now: int)
    requires HistoryInvariant(h)
    ensures MarkCurrentFailed(h, now) == h
  {
  }

  /** Appending a finished cycle and capping keeps the invariant. */
  lemma FinishedCycleKeepsInvariant(h: seq<HistoryEntry>, startTime: int, endTime: int, plan: seq<string>, runs: seq<TaskRun>)
    requires HistoryInvariant(h) && |runs| == |plan|
    ensures HistoryInvariant(KeepLast(h + [FinishedEntry(startTime, endTime, plan, runs)]))
  {
    var e := FinishedEntry(startTime, endTime, plan, runs);
    FinishedEntryAccounts(startTime, endTime, plan, runs);
    var h' := h + [e];
    assert forall i :: 0 <= i < |h'| ==>
      && h'[i].status != InProgress
      && (h'[i].status == Completed ==> |h'[i].completedTasks| + |h'[i].failedTasks| == |h'[i].taskPlan|)
      && (forall r :: r in h'[i].failedTasks ==> MayThrow(r.name));
  }
}
