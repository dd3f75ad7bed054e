/**
 * The two structured generators the client can run instead of the plain
 * thought loop: a story that walks its progress up to 100 percent, and a
 * content plan that is adopted on the first step and then followed step by
 * step.  Each generation step reads one model reply; the parsed JSON of that
 * reply is an `Option` (None: the parse threw).  A driver calls the step
 * until it reports completion; the model's replies arrive as a finite
 * sequence, so a driver also stops when they run out.
 */
module Structured {
  import opened Wrappers
  import opened Strings
  import opened Thoughts

  /** The reply both steps return when the model's text does not parse. */
  const FallbackThought := "Let me gather my thoughts..."

  /** `StructuredThoughtResponse`. */
  datatype ThoughtResponse = ThoughtResponse(thought: string, isComplete: bool)

  /** The text given to the JSON parser: the json fence removed, then trimmed. */
  function CleanResponse(response: string): (r: string)
  {
    Trim(StripFence(response))
  }

  /** A fenced reply reaches the parser as its trimmed body. */
  lemma CleanResponseOfFenced(body: string)
    ensures CleanResponse(FenceOpen + body + FenceClose) == Trim(body)
  {
    StripFenceOfFenced(body);
  }

  // ---------------------------------------------------------------- story

  /** The story generator's state. */
  datatype StoryState = StoryState(isComplete: bool, currentPhase: string, storyProgress: int)

  const InitialStory := StoryState(false, "introduction", 0)

  /** Progress never goes past this. */
  const StoryCap: int := 100

  /** The fields of a parsed story reply that the step reads. */
  datatype StoryEnvelope = StoryEnvelope(thought: string, storyProgress: int, phase: string)

  /** The state, the thought history and the reply after one story step. */
  datatype StoryOutcome = StoryOutcome(state: StoryState, history: seq<string>, response: ThoughtResponse)

  /** `generateStructuredStory` after the model has answered. */
  function StoryStep(state: StoryState, history: seq<string>, parsed: Option<StoryEnvelope>): (o: StoryOutcome)
    ensures parsed.Some? ==> o.state.storyProgress <= StoryCap
    ensures parsed.None? ==> o.state == state && o.history == history
  {
    match parsed
    case None => StoryOutcome(state, history, ThoughtResponse(FallbackThought, false))
    case Some(e) =>
      var progress := if e.storyProgress < StoryCap then e.storyProgress else StoryCap;
      var complete := progress >= StoryCap;
      StoryOutcome(StoryState(complete, e.phase, progress),
                   if complete then history else PushBounded(history, e.thought),
                   ThoughtResponse(e.thought, complete))
  }

  /**
   * A parsed reply sets the progress to the reported value capped at 100 and
   * the phase to the reported phase; the story is complete exactly when the
   * progress reached 100, and the reply says so.
   */
  lemma StoryStepClamps(state: StoryState, history: seq<string>, e: StoryEnvelope)
    ensures var o := StoryStep(state, history, Some(e));
            && o.state.storyProgress <= StoryCap
            && (e.storyProgress <= StoryCap ==> o.state.storyProgress == e.storyProgress)
            && (e.storyProgress >= StoryCap ==> o.state.storyProgress == StoryCap)
            && (o.state.isComplete <==> o.state.storyProgress == StoryCap)
            && (o.state.isComplete <==> e.storyProgress >= StoryCap)
            && o.state.currentPhase == e.phase
            && o.response == ThoughtResponse(e.thought, o.state.isComplete)
  {
  }

  /** The thought joins the history only on a step that does not complete the story. */
  lemma StoryHistoryOnlyWhileIncomplete(state: StoryState, history: seq<string>, e: StoryEnvelope)
    ensures var o := StoryStep(state, history, Some(e));
            && (o.state.isComplete ==> o.history == history)
            && (!o.state.isComplete ==> o.history == PushBounded(history, e.thought))
  {
  }

  /** A reply that does not parse changes nothing and yields the fallback, incomplete. */
  lemma StoryParseFailureIsNoOp(state: StoryState, history: seq<string>)
    ensures StoryStep(state, history, None) == StoryOutcome(state, history, ThoughtResponse(FallbackThought, false))
  {
  }

  /** Progress is assigned, not maximised: a lower reported value moves the story back. */
  lemma StoryProgressMayRegress()
    ensures var before := StoryState(false, "climax", 70);
            var o := StoryStep(before, [], Some(StoryEnvelope("again", 40, "development")));
            o.state.storyProgress < before.storyProgress
  {
  }

  /** How a driver loop ended. */
  datatype DriveEnd =
    | Finished                   // a step reported completion
    | Rejected(message: string)  // the model call rejected; the error leaves the driver
    | Stopped                    // the model call rejected; the driver caught the error
    | OutOfReplies               // the model's replies ran out first

  /** The final state of a story run and the thoughts it told, in order. */
  datatype StoryRun = StoryRun(end: DriveEnd, state: StoryState, history: seq<string>, story: seq<string>)

  /**
   * `startStructuredStory`: one step per model reply, each thought appended
   * to the story, until a step completes.  A rejected model call is not
   * caught here, so it ends the run as `Rejected`.
   */
  function DriveStory(state: StoryState, history: seq<string>,
                      replies: seq<Result<string>>, parse: string -> Option<StoryEnvelope>): (r: StoryRun)
    ensures !r.end.Stopped?
    decreases |replies|
  {
    if replies == [] then StoryRun(OutOfReplies, state, history, [])
    else match replies[0]
      case Err(m) => StoryRun(Rejected(m), state, history, [])
      case Ok(text) =>
        var o := StoryStep(state, history, parse(CleanResponse(text)));
        if o.response.isComplete then StoryRun(Finished, o.state, o.history, [o.response.thought])
        else
          var rest := DriveStory(o.state, o.history, replies[1..], parse);
          rest.(story := [o.response.thought] + rest.story)
  }

  /** The first reply of a run, when the model answered, is one story step. */
  lemma DriveStoryOnOk(state: StoryState, history: seq<string>,
                       replies: seq<Result<string>>, parse: string -> Option<StoryEnvelope>)
    requires replies != [] && replies[0].Ok?
    ensures var o := StoryStep(state, history, parse(CleanResponse(replies[0].value)));
            var rest := DriveStory(o.state, o.history, replies[1..], parse);
            DriveStory(state, history, replies, parse)
              == if o.response.isComplete then StoryRun(Finished, o.state, o.history, [o.response.thought])
                 else rest.(story := [o.response.thought] + rest.story)
  {
  }

  /**
   * A story run only finishes at 100 percent, having told at least one
   * thought; an error always leaves it; it tells at most one thought per reply.
   */
  lemma {:induction false} DriveStoryFinishesComplete(state: StoryState, history: seq<string>,
                                                       replies: seq<Result<string>>, parse: string -> Option<StoryEnvelope>)
    ensures var r := DriveStory(state, history, replies, parse);
            && (r.end == Finished ==> r.state.isComplete && r.state.storyProgress == StoryCap && r.story != [])
            && r.end != Stopped
            && |r.story| <= |replies|
    decreases |replies|
  {
    if replies != [] && replies[0].Ok? {
      var parsed := parse(CleanResponse(replies[0].value));
      var o := StoryStep(state, history, parsed);
      if parsed.Some? {
        StoryStepClamps(state, history, parsed.value);
      }
      if !o.response.isComplete {
        DriveStoryFinishesComplete(o.state, o.history, replies[1..], parse);
      }
    }
  }

  /** One parsed reply below 100 percent: the run goes on from the stepped state. */
  lemma DriveStoryContinues(state: StoryState, history: seq<string>, text: string, more: seq<Result<string>>,
                            parse: string -> Option<StoryEnvelope>, e: StoryEnvelope)
    requires parse(CleanResponse(text)) == Some(e) && e.storyProgress < StoryCap
    ensures var rest := DriveStory(StoryState(false, e.phase, e.storyProgress), PushBounded(history, e.thought), more, parse);
            DriveStory(state, history, [Ok(text)] + more, parse) == rest.(story := [e.thought] + rest.story)
  {
    assert ([Ok(text)] + more)[1..] == more;
  }

  /** One parsed reply at or past 100 percent finishes the run. */
  lemma DriveStoryStopsAtCap(state: StoryState, history: seq<string>, text: string, more: seq<Result<string>>,
                             parse: string -> Option<StoryEnvelope>, e: StoryEnvelope)
    requires parse(CleanResponse(text)) == Some(e) && e.storyProgress >= StoryCap
    ensures DriveStory(state, history, [Ok(text)] + more, parse)
         == StoryRun(Finished, StoryState(true, e.phase, StoryCap), history, [e.thought])
  {
  }

  /**
   * Three parsed replies at 40, 70 and 100 percent finish the story after the
   * third, with three thoughts told and the first two in the history.
   */
  lemma StoryOfThreeSteps(a: string, b: string, c: string, parse: string -> Option<StoryEnvelope>,
                          ta: string, tb: string, tc: string)
    requires parse(CleanResponse(a)) == Some(StoryEnvelope(ta, 40, "development"))
    requires parse(CleanResponse(b)) == Some(StoryEnvelope(tb, 70, "climax"))
    requires parse(CleanResponse(c)) == Some(StoryEnvelope(tc, 100, "resolution"))
    ensures var r := DriveStory(InitialStory, [], [Ok(a)] + ([Ok(b)] + [Ok(c)]), parse);
            && r.end == Finished
            && r.story == [ta, tb, tc]
            && r.history == [ta, tb]
            && r.state == StoryState(true, "resolution", 100)
  {
    assert PushBounded([], ta) == [ta];
    StoryLastTwoSteps(b, c, parse, ta, tb, tc);
    DriveStoryContinues(InitialStory, [], a, [Ok(b)] + [Ok(c)], parse, StoryEnvelope(ta, 40, "development"));
  }

  /** The second and third replies of `StoryOfThreeSteps`, from the state the first one left. */
  lemma StoryLastTwoSteps(b: string, c: string, parse: string -> Option<StoryEnvelope>, ta: string, tb: string, tc: string)
    requires parse(CleanResponse(b)) == Some(StoryEnvelope(tb, 70, "climax"))
    requires parse(CleanResponse(c)) == Some(StoryEnvelope(tc, 100, "resolution"))
    ensures DriveStory(StoryState(false, "development", 40), [ta], [Ok(b)] + [Ok(c)], parse)
         == StoryRun(Finished, StoryState(true, "resolution", 100), [ta, tb], [tb, tc])
  {
    assert PushBounded([ta], tb) == [ta, tb];
    DriveStoryStopsAtCap(StoryState(false, "climax", 70), [ta, tb], c, [], parse, StoryEnvelope(tc, 100, "resolution"));
    assert [Ok(c)] + [] == [Ok(c)];
    DriveStoryContinues(StoryState(false, "development", 40), [ta], b, [Ok(c)], parse, StoryEnvelope(tb, 70, "climax"));
  }

  // ---------------------------------------------------------------- content plan

  /** `ContentPlan`: the plan being followed and how far along it is. */
  datatype ContentPlan = ContentPlan(topic: string, goal: string, steps: seq<string>, currentStep: int, isComplete: bool)

  const InitialPlan := ContentPlan("", "", [], 0, false)

  /** The plan a first reply proposes. */
  datatype PlanDraft = PlanDraft(topic: string, goal: string, steps: seq<string>)

  /** The fields of a parsed content reply that the step reads. */
  datatype ContentEnvelope = ContentEnvelope(
    thought: string,
    contentPlan: Option<PlanDraft>,
    transition: Option<string>,
    currentStep: int,
    isComplete: bool)

  /** The plan, the thought history and the reply after one content step. */
  datatype ContentOutcome = ContentOutcome(plan: ContentPlan, history: seq<string>, response: ThoughtResponse)

  /** `generateStructuredContent` after the model has answered. */
  function ContentStep(plan: ContentPlan, history: seq<string>, parsed: Option<ContentEnvelope>): (o: ContentOutcome)
    ensures parsed.None? ==> o.plan == plan && o.history == history
    ensures parsed.Some? ==> o.history == PushBounded(history, parsed.value.thought)
  {
    match parsed
    case None => ContentOutcome(plan, history, ThoughtResponse(FallbackThought, false))
    case Some(e) =>
      var plan' :=
        if plan.currentStep == 0 && e.contentPlan.Some? then
          var d := e.contentPlan.value;
          ContentPlan(d.topic, d.goal, d.steps, 1, false)
        else plan.(currentStep := e.currentStep, isComplete := e.isComplete);
      ContentOutcome(plan', PushBounded(history, e.thought), ThoughtResponse(e.thought, plan'.isComplete))
  }

  /** On step 0 a proposed plan is adopted as step 1 of an unfinished plan. */
  lemma ContentAdoptsPlanAtStepZero(plan: ContentPlan, history: seq<string>, e: ContentEnvelope)
    requires plan.currentStep == 0 && e.contentPlan.Some?
    ensures var o := ContentStep(plan, history, Some(e));
            && o.plan.topic == e.contentPlan.value.topic
            && o.plan.goal == e.contentPlan.value.goal
            && o.plan.steps == e.contentPlan.value.steps
            && o.plan.currentStep == 1 && !o.plan.isComplete
            && !o.response.isComplete
  {
  }

  /**
   * Past step 0, or without a proposed plan, the step and the completion flag
   * are copied from the reply and the rest of the plan is kept.
   */
  lemma ContentCopiesProgress(plan: ContentPlan, history: seq<string>, e: ContentEnvelope)
    requires plan.currentStep != 0 || e.contentPlan.None?
    ensures var o := ContentStep(plan, history, Some(e));
            && o.plan.currentStep == e.currentStep && o.plan.isComplete == e.isComplete
            && o.plan.topic == plan.topic && o.plan.goal == plan.goal && o.plan.steps == plan.steps
            && o.response.isComplete == e.isComplete
  {
  }

  /**
   * Every parsed reply appends its raw thought to the history, and the
   * transition has no effect on the state or on the reply.
   */
  lemma ContentRecordsRawThought(plan: ContentPlan, history: seq<string>, e: ContentEnvelope, transition: Option<string>)
    ensures var o := ContentStep(plan, history, Some(e));
            && o.history == PushBounded(history, e.thought)
            && o.response.thought == e.thought
            && ContentStep(plan, history, Some(e.(transition := transition))) == o
  {
  }

  /** A reply that does not parse changes nothing and yields the fallback, incomplete. */
  lemma ContentParseFailureIsNoOp(plan: ContentPlan, history: seq<string>)
    ensures ContentStep(plan, history, None) == ContentOutcome(plan, history, ThoughtResponse(FallbackThought, false))
  {
  }

  /** The step is copied, not advanced: a reply may move the plan backwards. */
  lemma ContentStepMayRegress()
    ensures var before := ContentPlan("t", "g", ["a", "b", "c"], 3, false);
            var o := ContentStep(before, [], Some(ContentEnvelope("x", None, None, 2, false)));
            o.plan.currentStep < before.currentStep
  {
  }

  /** The final plan of a content run and the thoughts it produced, in order. */
  datatype ContentRun = ContentRun(end: DriveEnd, plan: ContentPlan, history: seq<string>, content: seq<string>)

  /**
   * `startStructuredContentGeneration`: one step per model reply until a step
   * completes; a rejected model call is caught and ends the run quietly.
   */
  function DriveContent(plan: ContentPlan, history: seq<string>,
                        replies: seq<Result<string>>, parse: string -> Option<ContentEnvelope>): (r: ContentRun)
    ensures !r.end.Rejected?
    decreases |replies|
  {
    if replies == [] then ContentRun(OutOfReplies, plan, history, [])
    else match replies[0]
      case Err(_) => ContentRun(Stopped, plan, history, [])
      case Ok(text) =>
        var o := ContentStep(plan, history, parse(CleanResponse(text)));
        if o.response.isComplete then ContentRun(Finished, o.plan, o.history, [o.response.thought])
        else
          var rest := DriveContent(o.plan, o.history, replies[1..], parse);
          rest.(content := [o.response.thought] + rest.content)
  }

  /** The first reply of a content run, when the model answered, is one content step. */
  lemma DriveContentOnOk(plan: ContentPlan, history: seq<string>,
                         replies: seq<Result<string>>, parse: string -> Option<ContentEnvelope>)
    requires replies != [] && replies[0].Ok?
    ensures var o := ContentStep(plan, history, parse(CleanResponse(replies[0].value)));
            var rest := DriveContent(o.plan, o.history, replies[1..], parse);
            DriveContent(plan, history, replies, parse)
              == if o.response.isComplete then ContentRun(Finished, o.plan, o.history, [o.response.thought])
                 else rest.(content := [o.response.thought] + rest.content)
  {
  }

  /**
   * A content run never lets an error out, finishes only on a plan marked
   * complete, and produces at most one thought per reply.
   */
  lemma {:induction false} DriveContentFinishesComplete(plan: ContentPlan, history: seq<string>,
                                                         replies: seq<Result<string>>, parse: string -> Option<ContentEnvelope>)
    ensures var r := DriveContent(plan, history, replies, parse);
            && !r.end.Rejected?
            && (r.end == Finished ==> r.plan.isComplete && r.content != [])
            && |r.content| <= |replies|
    decreases |replies|
  {
    if replies != [] && replies[0].Ok? {
      var o := ContentStep(plan, history, parse(CleanResponse(replies[0].value)));
      if !o.response.isComplete {
        DriveContentFinishesComplete(o.plan, o.history, replies[1..], parse);
      }
    }
  }
}
