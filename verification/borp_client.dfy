/**
 * The streaming client itself: its fields, the task cycle that plans and
 * runs tasks and records each cycle in the task history, the bounded
 * thought history, the two structured generators and their drivers, the
 * comment feed and agent chat room handlers, and the configuration refresh.
 *
 * Everything the client waits on is an argument: the model's replies (an
 * `Err` is a rejected call), the JSON parser (None: the parse threw), the
 * clock readings, and the results of the network calls.
 */
module Borp {
  import opened Wrappers
  import opened Strings
  import opened Config
  import opened History
  import opened Thoughts
  import opened Structured
  import opened Comments

  /** The tasks offered to the planner before a mode narrows them. */
  const InitialTaskQueue: seq<string> :=
    ["readChatAndReply", "generateFreshThought", "generatePeriodicAnimation",
     "startStructuredStory", "startStructuredContentGeneration"]

  /** The tasks offered for a run mode; an unknown mode keeps the current list. */
  function OfferedTasks(mode: string, current: seq<string>): (r: seq<string>)
  {
    if mode == "startStructuredStory" then ["startStructuredStory"]
    else if mode == "startStructuredContentGeneration" then ["startStructuredContentGeneration"]
    else if mode == "normal" then ["readChatAndReply", "generateFreshThought", "generatePeriodicAnimation"]
    else current
  }

  /**
   * The story and content modes offer only their own task, `normal` offers
   * the three chat tasks, any other mode keeps the list; every list offered
   * names only tasks the cycle knows, and applying a mode again changes nothing.
   */
  lemma OfferedTasksByMode(mode: string, current: seq<string>)
    requires forall t :: t in current ==> t in KnownTasks
    ensures var r := OfferedTasks(mode, current);
            && (mode == "startStructuredStory" ==> r == ["startStructuredStory"])
            && (mode == "startStructuredContentGeneration" ==> r == ["startStructuredContentGeneration"])
            && (mode == "normal" ==> r == ["readChatAndReply", "generateFreshThought", "generatePeriodicAnimation"])
            && (mode !in {"startStructuredStory", "startStructuredContentGeneration", "normal"} ==> r == current)
            && (forall t :: t in r ==> t in KnownTasks)
            && OfferedTasks(mode, r) == r
  {
  }

  /** The initial list offers every task the cycle knows, and nothing else. */
  lemma InitialQueueIsKnownTasks()
    ensures forall t :: t in InitialTaskQueue <==> t in KnownTasks
  {
  }

  /** The error reported when the planner's reply is not JSON. */
  const PlanParseError := "the task plan is not valid JSON"

  /**
   * `generateTheTaskPlan` after the model has answered: the json fence is
   * removed (there is no trim here) and the task names are read from the
   * rest; a rejected model call or a parse failure rejects the plan.
   */
  function GenerateTheTaskPlan(reply: Result<string>, parse: string -> Option<seq<string>>): (r: Result<seq<string>>)
    ensures reply.Err? ==> r == Err(reply.message)
    ensures r.Ok? <==> reply.Ok? && parse(StripFence(reply.value)).Some?
    ensures r.Ok? ==> Some(r.value) == parse(StripFence(reply.value))
  {
    match reply
    case Err(m) => Err(m)
    case Ok(text) =>
      match parse(StripFence(text))
      case None => Err(PlanParseError)
      case Some(names) => Ok(names)
  }

  /** A fenced reply is parsed from its body; an unfenced one as it stands. */
  lemma PlanIsReadInsideTheFence(body: string, text: string, parse: string -> Option<seq<string>>)
    ensures GenerateTheTaskPlan(Ok(FenceOpen + body + FenceClose), parse)
         == (if parse(body).Some? then Ok(parse(body).value) else Err(PlanParseError))
    ensures !StartsWith(text, FenceOpen) && !EndsWith(text, FenceClose) ==>
              (GenerateTheTaskPlan(Ok(text), parse)
               == if parse(text).Some? then Ok(parse(text).value) else Err(PlanParseError))
  {
    StripFenceOfFenced(body);
    if !StartsWith(text, FenceOpen) && !EndsWith(text, FenceClose) {
      StripFenceWithoutFence(text);
    }
  }

  /** The client fields the task handlers change, as one value. */
  datatype HandlerState = HandlerState(
    lastProcessedTimestamp: Option<int>,
    storyState: StoryState,
    contentPlan: ContentPlan,
    thoughtHistory: seq<string>)

  /**
   * What one task of a cycle waits on: the clock readings around it, and the
   * inputs of whichever handler its name selects (the unread comment batch,
   * the answers of the reply pipeline and the clock reading of the chat
   * handler; the model's replies and the JSON parser of each structured driver).
   */
  datatype TaskInput = TaskInput(
    startTime: int,
    endTime: int,
    comments: seq<Comment>,
    replyOracle: ReplyOracle,
    readTime: int,
    storyReplies: seq<Result<string>>,
    parseStory: string -> Option<StoryEnvelope>,
    contentReplies: seq<Result<string>>,
    parseContent: string -> Option<ContentEnvelope>)

  /** The handler fields after a handler ran, and the error it let out, if any. */
  datatype HandlerOutcome = HandlerOutcome(state: HandlerState, error: Option<string>)

  /**
   * The `switch` of the task loop: the handler the name selects, applied to
   * the handler fields.  The chat handler may move the read watermark, the
   * story driver may change the story and the thoughts and is the only one
   * that lets an error out, and the content driver may change the content
   * plan and the thoughts.  The thought and animation handlers only post, and
   * a name without a case runs nothing; neither changes a field.
   */
  function Dispatch(h: HandlerState, name: string, t: TaskInput): (o: HandlerOutcome)
    ensures o.error.Some? ==> MayThrow(name)
    ensures name != "readChatAndReply" ==> o.state.lastProcessedTimestamp == h.lastProcessedTimestamp
    ensures name != "startStructuredStory" ==> o.state.storyState == h.storyState
    ensures name != "startStructuredContentGeneration" ==> o.state.contentPlan == h.contentPlan
    ensures name != "startStructuredStory" && name != "startStructuredContentGeneration" ==>
              o.state.thoughtHistory == h.thoughtHistory
  {
    if name == "readChatAndReply" then
      var c := ReadChat(t.comments, t.replyOracle);
      HandlerOutcome(h.(lastProcessedTimestamp := if c.advanced then Some(t.readTime) else h.lastProcessedTimestamp), None)
    else if name == "startStructuredStory" then
      var run := DriveStory(h.storyState, h.thoughtHistory, t.storyReplies, t.parseStory);
      HandlerOutcome(h.(storyState := run.state, thoughtHistory := run.history),
                     if run.end.Rejected? then Some(run.end.message) else None)
    else if name == "startStructuredContentGeneration" then
      var run := DriveContent(h.contentPlan, h.thoughtHistory, t.contentReplies, t.parseContent);
      HandlerOutcome(h.(contentPlan := run.plan, thoughtHistory := run.history), None)
    else HandlerOutcome(h, None)
  }

  /** The handler fields once the first `n` tasks of the plan have run, starting from `h`. */
  function HandlersAfter(h: HandlerState, plan: seq<string>, inputs: nat -> TaskInput, n: nat): HandlerState
    requires n <= |plan|
  {
    if n == 0 then h else Dispatch(HandlersAfter(h, plan, inputs, n - 1), plan[n - 1], inputs(n - 1)).state
  }

  /** For each task of a cycle that started from `h`: its clock readings and the error its handler let out. */
  function CycleRuns(h: HandlerState, plan: seq<string>, inputs: nat -> TaskInput): nat -> TaskRun
  {
    (k: nat) => TaskRun(inputs(k).startTime, inputs(k).endTime,
                            if k < |plan| then Dispatch(HandlersAfter(h, plan, inputs, k), plan[k], inputs(k)).error else None)
  }

  /**
   * The record of the k-th task names it and times it, and carries an error
   * exactly when it is the story task and the story driver let the model's
   * rejection out, with that rejection's message.
   */
  lemma CycleRecordOfTask(h: HandlerState, plan: seq<string>, inputs: nat -> TaskInput, k: nat)
    requires k < |plan|
    ensures var rec := PlanRecords(plan, RunsOf(|plan|, CycleRuns(h, plan, inputs)))[k];
            var at := HandlersAfter(h, plan, inputs, k);
            var t := inputs(k);
            var run := DriveStory(at.storyState, at.thoughtHistory, t.storyReplies, t.parseStory);
            && rec.name == plan[k]
            && rec.startTime == t.startTime && rec.endTime == t.endTime
            && rec.duration == t.endTime - t.startTime
            && (rec.error.Some? <==> plan[k] == "startStructuredStory" && run.end.Rejected?)
            && (rec.error.Some? ==> rec.error.value == run.end.message)
  {
    assert RunsOf(|plan|, CycleRuns(h, plan, inputs))[k] == CycleRuns(h, plan, inputs)(k);
  }

  /**
   * Each field changes only through the tasks that own it: the story state
   * through story tasks, the content plan through content tasks, the
   * watermark through chat tasks, and the thoughts through the two
   * structured drivers.
   */
  lemma {:induction false} FieldsChangeOnlyThroughTheirTasks(h: HandlerState, plan: seq<string>, inputs: nat -> TaskInput, n: nat)
    requires n <= |plan|
    ensures var a := HandlersAfter(h, plan, inputs, n);
            && ("startStructuredStory" !in plan[..n] ==> a.storyState == h.storyState)
            && ("startStructuredContentGeneration" !in plan[..n] ==> a.contentPlan == h.contentPlan)
            && ("readChatAndReply" !in plan[..n] ==> a.lastProcessedTimestamp == h.lastProcessedTimestamp)
            && ("startStructuredStory" !in plan[..n] && "startStructuredContentGeneration" !in plan[..n] ==>
                  a.thoughtHistory == h.thoughtHistory)
  {
    if n > 0 {
      FieldsChangeOnlyThroughTheirTasks(h, plan, inputs, n - 1);
      var o := Dispatch(HandlersAfter(h, plan, inputs, n - 1), plan[n - 1], inputs(n - 1));
      assert HandlersAfter(h, plan, inputs, n) == o.state;
      assert plan[..n] == plan[..n - 1] + [plan[n - 1]];
    }
  }

  /**
   * A story cycle whose first reply reports 100 percent completes the story:
   * the story state is complete at the resolution the reply names, and the
   * task is recorded as completed.
   */
  lemma StoryCycleCompletesStory(h: HandlerState, inputs: nat -> TaskInput, text: string, more: seq<Result<string>>,
                                 e: StoryEnvelope)
    requires inputs(0).storyReplies == [Ok(text)] + more
    requires inputs(0).parseStory(CleanResponse(text)) == Some(e) && e.storyProgress >= StoryCap
    ensures var plan := ["startStructuredStory"];
            && HandlersAfter(h, plan, inputs, 1).storyState == StoryState(true, e.phase, StoryCap)
            && PlanRecords(plan, RunsOf(1, CycleRuns(h, plan, inputs)))[0].error.None?
  {
    var plan := ["startStructuredStory"];
    DriveStoryStopsAtCap(h.storyState, h.thoughtHistory, text, more, inputs(0).parseStory, e);
    CycleRecordOfTask(h, plan, inputs, 0);
  }

  /** A client state whose handler fields are replaced by `h`. */
  function WithHandlers(s: ClientState, h: HandlerState): ClientState
  {
    s.(lastProcessedTimestamp := h.lastProcessedTimestamp, storyState := h.storyState,
       contentPlan := h.contentPlan, thoughtHistory := h.thoughtHistory)
  }

  /** All the fields the client updates, as one value. */
  datatype ClientState = ClientState(
    currentSubject: string,
    mode: string,
    taskQueueConstants: seq<string>,
    lastProcessedTimestamp: Option<int>,
    lastAgentChatMessageId: Option<string>,
    taskHistory: seq<HistoryEntry>,
    storyState: StoryState,
    contentPlan: ContentPlan,
    thoughtHistory: seq<string>)

  class BorpClient {
    var currentSubject: string
    var mode: string
    var taskQueueConstants: seq<string>
    var lastProcessedTimestamp: Option<int>
    var lastAgentChatMessageId: Option<string>
    var taskHistory: seq<HistoryEntry>
    var storyState: StoryState
    var contentPlan: ContentPlan
    var thoughtHistory: seq<string>
    const configReader: ConfigReader

    ghost function Snapshot(): ClientState
      reads this
    {
      ClientState(currentSubject, mode, taskQueueConstants, lastProcessedTimestamp, lastAgentChatMessageId,
                  taskHistory, storyState, contentPlan, thoughtHistory)
    }

    ghost function Handlers(): HandlerState
      reads this
    {
      HandlerState(lastProcessedTimestamp, storyState, contentPlan, thoughtHistory)
    }

    /** At most five remembered thoughts and story progress not past 100; the handlers keep this. */
    ghost predicate HandlersValid()
      reads this
    {
      |thoughtHistory| <= MaxThoughtHistory && storyState.storyProgress <= StoryCap
    }

    /** Between calls: the handlers' bounds, and a task history that satisfies the history invariant. */
    ghost predicate Valid()
      reads this
    {
      HandlersValid() && HistoryInvariant(taskHistory)
    }

    /** Reads the subject and the mode from the configuration; the read watermark starts at `now`. */
    constructor (reader: ConfigReader, now: int)
      ensures configReader == reader
      ensures Snapshot() == ClientState(reader.GetValue("currentSubject"), reader.GetValue("mode"), InitialTaskQueue,
                                        Some(now), None, [], InitialStory, InitialPlan, [])
      ensures Valid()
    {
      configReader := reader;
      currentSubject := reader.GetValue("currentSubject");
      mode := reader.GetValue("mode");
      taskQueueConstants := InitialTaskQueue;
      lastProcessedTimestamp := Some(now);
      lastAgentChatMessageId := None;
      taskHistory := [];
      storyState := InitialStory;
      contentPlan := InitialPlan;
      thoughtHistory := [];
    }

    /** `push` the thought, then drop the oldest one if there are more than five. */
    method UpdateThoughtHistory(thought: string)
      modifies this
      ensures Snapshot() == old(Snapshot()).(thoughtHistory := PushBounded(old(thoughtHistory), thought))
    {
      thoughtHistory := thoughtHistory + [thought];
      if |thoughtHistory| > MaxThoughtHistory {
        thoughtHistory := thoughtHistory[1..];
      }
    }

    /** The latest cycle, which between calls is never still in progress. */
    function GetCurrentCycleStatus(): (r: Option<HistoryEntry>)
      reads this
      ensures r.None? <==> taskHistory == []
      ensures r.Some? ==> r.value == taskHistory[|taskHistory| - 1]
      ensures Valid() && r.Some? ==> r.value.status != InProgress
    {
      if |taskHistory| > 0 then Some(taskHistory[|taskHistory| - 1]) else None
    }

    /** Narrows the offered tasks according to the run mode. */
    method ApplyMode()
      modifies this
      ensures Snapshot() == old(Snapshot()).(taskQueueConstants := OfferedTasks(old(mode), old(taskQueueConstants)))
    {
      if mode == "startStructuredStory" {
        taskQueueConstants := ["startStructuredStory"];
      } else if mode == "startStructuredContentGeneration" {
        taskQueueConstants := ["startStructuredContentGeneration"];
      } else if mode == "normal" {
        taskQueueConstants := ["readChatAndReply", "generateFreshThought", "generatePeriodicAnimation"];
      }
    }

    /**
     * Drains the plan front to back: each task runs the handler its name
     * selects, and its outcome is appended to the current (last) entry, to
     * the failures when its handler rejected and to the completed tasks
     * otherwise, whatever the name.
     */
    method RunPlan(ghost before: seq<HistoryEntry>, startTime: int, plan: seq<string>, inputs: nat -> TaskInput)
      requires HandlersValid()
      requires taskHistory == before + [OpenEntry(startTime, plan, [])]
      modifies this
      ensures HandlersValid()
      ensures var h0 := old(Handlers());
              Snapshot() == WithHandlers(old(Snapshot()), HandlersAfter(h0, plan, inputs, |plan|))
                              .(taskHistory := before + [OpenEntry(startTime, plan, PlanRecords(plan, RunsOf(|plan|, CycleRuns(h0, plan, inputs))))])
    {
      ghost var s0 := Snapshot();
      ghost var h0 := Handlers();
      var remaining := plan;
      var i := 0;
      assert PlanRecords(plan[..0], RunsOf(0, CycleRuns(h0, plan, inputs))) == [];
      while remaining != []
        invariant 0 <= i <= |plan| && remaining == plan[i..]
        invariant HandlersValid()
        invariant Snapshot() == WithHandlers(s0, HandlersAfter(h0, plan, inputs, i))
                                  .(taskHistory := before + [OpenEntry(startTime, plan, PlanRecords(plan[..i], RunsOf(i, CycleRuns(h0, plan, inputs))))])
        decreases |remaining|
      {
        RecordTask(before, h0, startTime, plan, inputs, i);
        remaining := remaining[1..];
        i := i + 1;
      }
      assert plan[..i] == plan;
    }

    /**
     * One turn of the loop: the i-th task runs the handler its name selects
     * (the `switch`), and its outcome, with the error the handler let out, is
     * pushed onto the current entry.
     */
    method RecordTask(ghost before: seq<HistoryEntry>, ghost h0: HandlerState, startTime: int, plan: seq<string>,
                      inputs: nat -> TaskInput, i: nat)
      requires i < |plan|
      requires HandlersValid() && Handlers() == HandlersAfter(h0, plan, inputs, i)
      requires taskHistory == before + [OpenEntry(startTime, plan, PlanRecords(plan[..i], RunsOf(i, CycleRuns(h0, plan, inputs))))]
      modifies this
      ensures HandlersValid()
      ensures Snapshot() == WithHandlers(old(Snapshot()), HandlersAfter(h0, plan, inputs, i + 1))
                              .(taskHistory := before + [OpenEntry(startTime, plan, PlanRecords(plan[..i + 1], RunsOf(i + 1, CycleRuns(h0, plan, inputs))))])
    {
      var task := plan[i];
      var t := inputs(i);
      var error := RunHandler(task, t);
      assert Handlers() == HandlersAfter(h0, plan, inputs, i + 1);
      var record := RecordOf(task, TaskRun(t.startTime, t.endTime, error));
      assert record == RecordOf(plan[i], CycleRuns(h0, plan, inputs)(i));
      OpenEntryStep(startTime, plan, CycleRuns(h0, plan, inputs), i);
      PushRecord(before, OpenEntry(startTime, plan, PlanRecords(plan[..i], RunsOf(i, CycleRuns(h0, plan, inputs)))), record);
    }

    /** The record joins the current entry's failures when it carries an error, its completed tasks otherwise. */
    method PushRecord(ghost before: seq<HistoryEntry>, ghost current: HistoryEntry, record: TaskRecord)
      requires taskHistory == before + [current]
      modifies this
      ensures Snapshot() == old(Snapshot()).(taskHistory := before + [if record.error.Some? then current.(failedTasks := current.failedTasks + [record])
                                                                       else current.(completedTasks := current.completedTasks + [record])])
    {
      var last := taskHistory[|taskHistory| - 1];
      assert taskHistory[..|taskHistory| - 1] == before;
      if record.error.Some? {
        taskHistory := taskHistory[..|taskHistory| - 1] + [last.(failedTasks := last.failedTasks + [record])];
      } else {
        taskHistory := taskHistory[..|taskHistory| - 1] + [last.(completedTasks := last.completedTasks + [record])];
      }
    }

    /**
     * The `switch` of the task loop: run the handler the task's name selects;
     * `error` is the rejection the handler let out, if any.
     */
    method RunHandler(task: string, t: TaskInput) returns (error: Option<string>)
      requires HandlersValid()
      modifies this
      ensures HandlersValid()
      ensures var o := Dispatch(old(Handlers()), task, t);
              error == o.error && Snapshot() == WithHandlers(old(Snapshot()), o.state)
    {
      error := None;
      if task == "readChatAndReply" {
        var _ := ReadChatAndReply(t.comments, t.replyOracle, t.readTime);
      } else if task == "startStructuredStory" {
        var r := StartStructuredStory(t.storyReplies, t.parseStory);
        if r.Err? {
          error := Some(r.message);
        }
      } else if task == "startStructuredContentGeneration" {
        var _ := StartStructuredContentGeneration(t.contentReplies, t.parseContent);
      }
    }

    /**
     * One task cycle (`startTaskProcessing`): narrow the offered tasks by the
     * mode, obtain a plan, record an in-progress entry, run the plan's tasks
     * front to back through their handlers recording each outcome, close the
     * entry, and keep the last hundred entries.  `inputs(i)` is what the
     * clock and the i-th task's handler wait on; a failed plan goes to the
     * cycle's error handler.
     */
    method StartTaskProcessing(planReply: Result<string>, parsePlan: string -> Option<seq<string>>,
                               cycleStart: int, inputs: nat -> TaskInput, cycleEnd: int, failTime: int)
      requires Valid()
      modifies this
      ensures Valid()
      ensures var planned := GenerateTheTaskPlan(planReply, parsePlan);
              var offered := OfferedTasks(old(mode), old(taskQueueConstants));
              var h0 := old(Handlers());
              if planned.Ok? then
                var plan := planned.value;
                Snapshot() == WithHandlers(old(Snapshot()), HandlersAfter(h0, plan, inputs, |plan|))
                                .(taskQueueConstants := offered,
                                  taskHistory := KeepLast(old(taskHistory) + [FinishedEntry(cycleStart, cycleEnd, plan,
                                                                                            RunsOf(|plan|, CycleRuns(h0, plan, inputs)))]))
              else Snapshot() == old(Snapshot()).(taskQueueConstants := offered)
    {
      ApplyMode();
      var planned := GenerateTheTaskPlan(planReply, parsePlan);
      if planned.Err? {
        CycleErrorChangesNothing(taskHistory, failTime);
        taskHistory := MarkCurrentFailed(taskHistory, failTime);
        return;
      }
      var plan := planned.value;
      var entry := HistoryEntry(cycleStart, None, plan, [], [], InProgress, None);
      ghost var before := taskHistory;
      ghost var h0 := Handlers();
      taskHistory := taskHistory + [entry];
      assert entry == OpenEntry(cycleStart, plan, []);
      RunPlan(before, cycleStart, plan, inputs);
      CloseCycle(before, plan, CycleRuns(h0, plan, inputs), cycleStart, cycleEnd);
    }

    /**
     * The end of a cycle: the open entry is stamped completed with its end
     * time and duration, and the history is cut to its last hundred entries.
     */
    method CloseCycle(ghost before: seq<HistoryEntry>, plan: seq<string>, ghost run: nat -> TaskRun, cycleStart: int, cycleEnd: int)
      requires HistoryInvariant(before) && HandlersValid()
      requires taskHistory == before + [OpenEntry(cycleStart, plan, PlanRecords(plan, RunsOf(|plan|, run)))]
      modifies this
      ensures Valid()
      ensures Snapshot() == old(Snapshot()).(taskHistory := KeepLast(before + [FinishedEntry(cycleStart, cycleEnd, plan, RunsOf(|plan|, run))]))
    {
      var current := taskHistory[|taskHistory| - 1];
      taskHistory := taskHistory[..|taskHistory| - 1]
                     + [current.(endTime := Some(cycleEnd), status := Completed, duration := Some(cycleEnd - current.startTime))];
      assert taskHistory == before + [FinishedEntry(cycleStart, cycleEnd, plan, RunsOf(|plan|, run))];
      if |taskHistory| > MaxHistory {
        taskHistory := taskHistory[|taskHistory| - MaxHistory..];
      }
      FinishedCycleKeepsInvariant(before, cycleStart, cycleEnd, plan, RunsOf(|plan|, run));
    }

    /**
     * `generateStructuredStory`: a rejected model call rejects and changes
     * nothing; otherwise the reply is cleaned, parsed and applied as `StoryStep`.
     */
    method GenerateStructuredStory(reply: Result<string>, parse: string -> Option<StoryEnvelope>) returns (r: Result<ThoughtResponse>)
      requires HandlersValid()
      modifies this
      ensures HandlersValid()
      ensures reply.Err? ==> r == Err(reply.message) && Snapshot() == old(Snapshot())
      ensures reply.Ok? ==>
                var o := StoryStep(old(storyState), old(thoughtHistory), parse(CleanResponse(reply.value)));
                r == Ok(o.response) && Snapshot() == old(Snapshot()).(storyState := o.state, thoughtHistory := o.history)
    {
      if reply.Err? {
        return Err(reply.message);
      }
      var parsed := parse(CleanResponse(reply.value));
      if parsed.None? {
        return Ok(ThoughtResponse(FallbackThought, false));
      }
      var e := parsed.value;
      storyState := storyState.(storyProgress := if e.storyProgress < StoryCap then e.storyProgress else StoryCap);
      storyState := storyState.(currentPhase := e.phase);
      storyState := storyState.(isComplete := storyState.storyProgress >= StoryCap);
      if !storyState.isComplete {
        UpdateThoughtHistory(e.thought);
      }
      return Ok(ThoughtResponse(e.thought, storyState.isComplete));
    }

    /**
     * `startStructuredStory`: story steps until one completes; a rejected
     * model call leaves the loop as the task's error.  The result is the
     * story told, in order.
     */
    method StartStructuredStory(replies: seq<Result<string>>, parse: string -> Option<StoryEnvelope>) returns (r: Result<seq<string>>)
      requires HandlersValid()
      modifies this
      ensures HandlersValid()
      ensures var run := DriveStory(old(storyState), old(thoughtHistory), replies, parse);
              && Snapshot() == old(Snapshot()).(storyState := run.state, thoughtHistory := run.history)
              && (r.Err? <==> run.end.Rejected?)
              && (r.Err? ==> r.message == run.end.message)
              && (r.Ok? ==> r.value == run.story)
    {
      ghost var total := DriveStory(storyState, thoughtHistory, replies, parse);
      ghost var s0 := Snapshot();
      var story: seq<string> := [];
      var i := 0;
      while i < |replies|
        invariant 0 <= i <= |replies|
        invariant HandlersValid()
        invariant Snapshot() == s0.(storyState := storyState, thoughtHistory := thoughtHistory)
        invariant var rest := DriveStory(storyState, thoughtHistory, replies[i..], parse);
                  total == rest.(story := story + rest.story)
        decreases |replies| - i
      {
        assert replies[i..][0] == replies[i] && replies[i..][1..] == replies[i + 1..];
        ghost var story0 := story;
        ghost var st, hi := storyState, thoughtHistory;
        var res := GenerateStructuredStory(replies[i], parse);
        if res.Err? {
          assert DriveStory(st, hi, replies[i..], parse) == StoryRun(Rejected(res.message), st, hi, []);
          return Err(res.message);
        }
        DriveStoryOnOk(st, hi, replies[i..], parse);
        story := story + [res.value.thought];
        if res.value.isComplete {
          return Ok(story);
        }
        ghost var rest := DriveStory(storyState, thoughtHistory, replies[i + 1..], parse);
        AppendRegroup(story0, [res.value.thought], rest.story);
        i := i + 1;
      }
      assert story + [] == story;
      return Ok(story);
    }

    /**
     * `generateStructuredContent`: a rejected model call rejects and changes
     * nothing; otherwise the reply is cleaned, parsed and applied as `ContentStep`.
     */
    method GenerateStructuredContent(reply: Result<string>, parse: string -> Option<ContentEnvelope>) returns (r: Result<ThoughtResponse>)
      requires HandlersValid()
      modifies this
      ensures HandlersValid()
      ensures reply.Err? ==> r == Err(reply.message) && Snapshot() == old(Snapshot())
      ensures reply.Ok? ==>
                var o := ContentStep(old(contentPlan), old(thoughtHistory), parse(CleanResponse(reply.value)));
                r == Ok(o.response) && Snapshot() == old(Snapshot()).(contentPlan := o.plan, thoughtHistory := o.history)
    {
      if reply.Err? {
        return Err(reply.message);
      }
      var parsed := parse(CleanResponse(reply.value));
      if parsed.None? {
        return Ok(ThoughtResponse(FallbackThought, false));
      }
      var e := parsed.value;
      if contentPlan.currentStep == 0 && e.contentPlan.Some? {
        var draft := e.contentPlan.value;
        contentPlan := ContentPlan(draft.topic, draft.goal, draft.steps, 1, false);
      } else {
        contentPlan := contentPlan.(currentStep := e.currentStep);
        contentPlan := contentPlan.(isComplete := e.isComplete);
      }
      UpdateThoughtHistory(e.thought);
      return Ok(ThoughtResponse(e.thought, contentPlan.isComplete));
    }

    /**
     * `startStructuredContentGeneration`: content steps until one completes;
     * a rejected model call is caught and ends the loop.  The result is the
     * content produced, in order.
     */
    method StartStructuredContentGeneration(replies: seq<Result<string>>, parse: string -> Option<ContentEnvelope>)
      returns (content: seq<string>)
      requires HandlersValid()
      modifies this
      ensures HandlersValid()
      ensures var run := DriveContent(old(contentPlan), old(thoughtHistory), replies, parse);
              && Snapshot() == old(Snapshot()).(contentPlan := run.plan, thoughtHistory := run.history)
              && content == run.content
    {
      ghost var total := DriveContent(contentPlan, thoughtHistory, replies, parse);
      ghost var s0 := Snapshot();
      content := [];
      var i := 0;
      while i < |replies|
        invariant 0 <= i <= |replies|
        invariant HandlersValid()
        invariant Snapshot() == s0.(contentPlan := contentPlan, thoughtHistory := thoughtHistory)
        invariant var rest := DriveContent(contentPlan, thoughtHistory, replies[i..], parse);
                  total == rest.(content := content + rest.content)
        decreases |replies| - i
      {
        assert replies[i..][0] == replies[i] && replies[i..][1..] == replies[i + 1..];
        ghost var content0 := content;
        ghost var pl, hi := contentPlan, thoughtHistory;
        var res := GenerateStructuredContent(replies[i], parse);
        if res.Err? {
          assert DriveContent(pl, hi, replies[i..], parse) == ContentRun(Stopped, pl, hi, []);
          assert content + [] == content;
          return;
        }
        DriveContentOnOk(pl, hi, replies[i..], parse);
        content := content + [res.value.thought];
        if res.value.isComplete {
          return;
        }
        ghost var rest := DriveContent(contentPlan, thoughtHistory, replies[i + 1..], parse);
        AppendRegroup(content0, [res.value.thought], rest.content);
        i := i + 1;
      }
      assert content + [] == content;
    }

    /**
     * `readChatAndReply`: process a non-empty unread batch, and move the read
     * watermark to `now` unless the processing rejected.  The batch is what
     * the feed helper resolved to; it is empty when that request failed.
     */
    method ReadChatAndReply(fetched: seq<Comment>, oracle: ReplyOracle, now: int) returns (effects: seq<Effect>)
      modifies this
      ensures var c := ReadChat(fetched, oracle);
              && effects == c.effects
              && Snapshot() == old(Snapshot()).(lastProcessedTimestamp :=
                                                  if c.advanced then Some(now) else old(lastProcessedTimestamp))
    {
      effects := [];
      if |fetched| > 0 {
        var processed := ProcessComments(fetched, oracle);
        effects := processed.effects;
        if processed.result.Err? {
          return;
        }
      }
      lastProcessedTimestamp := Some(now);
    }

    /**
     * `readAgentChatAndReply`: look at the room's latest message, remember
     * our own without answering, and answer anyone else's once; the result
     * is the text handed to the room, if any.
     */
    method ReadAgentChatAndReply(isInChat: bool, fetched: Option<seq<RoomMessage>>, selfId: string,
                                 reply: Result<Option<string>>, now: int) returns (posted: Option<string>)
      modifies this
      ensures var t := AgentChat(isInChat, fetched, old(lastAgentChatMessageId), selfId, reply);
              && posted == t.posted
              && Snapshot() == old(Snapshot()).(lastAgentChatMessageId := t.lastId,
                                                lastProcessedTimestamp :=
                                                  if t.advanced then Some(now) else old(lastProcessedTimestamp))
    {
      posted := None;
      if !isInChat || fetched.None? || |fetched.value| == 0 {
        return;
      }
      var messages := fetched.value;
      var latest := messages[|messages| - 1];
      if lastAgentChatMessageId == Some(latest.id) {
        return;
      }
      if latest.agentId == selfId {
        lastAgentChatMessageId := Some(latest.id);
        return;
      }
      if reply.Err? || reply.value.None? || reply.value.value == "" {
        return;
      }
      posted := reply.value;
      lastAgentChatMessageId := Some(latest.id);
      lastProcessedTimestamp := Some(now);
    }

    /**
     * `refreshConfig`: reload the configuration and re-read the subject; the
     * mode keeps the value read at construction.  When the file cannot be
     * read the reload has already emptied the map and then rethrows, so the
     * subject is not re-read and the refresh fails (`ok` is false).
     */
    method RefreshConfig(content: Option<string>) returns (ok: bool)
      modifies this, configReader
      ensures ok <==> content.Some?
      ensures configReader.config == if content.Some? then LoadLines(map[], Lines(content.value)) else map[]
      ensures ok ==> Snapshot() == old(Snapshot()).(currentSubject := configReader.GetValue("currentSubject"))
      ensures !ok ==> Snapshot() == old(Snapshot())
    {
      ok := configReader.ReloadConfig(content);
      if !ok {
        return;
      }
      currentSubject := configReader.GetValue("currentSubject");
    }
  }
}
