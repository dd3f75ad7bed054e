/**
 * The viewer-comment reply pipeline and the agent chat room rule.  The
 * model's answers, the memory store's answers and the network results are
 * inputs; the pipeline's visible effects are returned as a list, in the
 * order the client performs them.
 */
module Comments {
  import opened Wrappers
  import opened Strings

  /** `IComment`: one viewer comment. */
  datatype Comment = Comment(id: string, user: string, handle: string, message: Option<string>, avatar: Option<string>)

  /** The answer by which the model declines to pick a comment. */
  const NoneSentinel := "NONE"

  function Ids(comments: seq<Comment>): (r: seq<string>)
    ensures |r| == |comments|
    ensures forall i :: 0 <= i < |comments| ==> r[i] == comments[i].id
  {
    seq(|comments|, i requires 0 <= i < |comments| => comments[i].id)
  }

  /**
   * `selectCommentToRespondTo`: no choice for an empty batch (the model is
   * not asked), the error when the model call rejects, no choice when the
   * model answers with the sentinel, and otherwise the answer itself.
   */
  function SelectCommentToRespondTo(comments: seq<Comment>, answer: Result<string>): (r: Result<Option<string>>)
    ensures r.Ok? && r.value.Some? ==> comments != [] && r.value.value != NoneSentinel
  {
    if comments == [] then Ok(None)
    else match answer
      case Err(m) => Err(m)
      case Ok(text) => if text == NoneSentinel then Ok(None) else Ok(Some(text))
  }

  /** A choice is never the sentinel and is always the model's literal answer. */
  lemma SelectionIsAnswerOrNull(comments: seq<Comment>, answer: Result<string>)
    ensures var r := SelectCommentToRespondTo(comments, answer);
            && (comments == [] ==> r == Ok(None))
            && (comments != [] && answer == Ok(NoneSentinel) ==> r == Ok(None))
            && (r.Ok? && r.value.Some? ==> answer == Ok(r.value.value) && r.value.value != NoneSentinel)
            && (comments != [] && answer.Err? ==> r.Err?)
  {
  }

  /** The position of the first comment of the batch with the id, or the batch's length when there is none. */
  function FirstWithId(comments: seq<Comment>, id: string): (k: nat)
    ensures k <= |comments|
    ensures k < |comments| ==> comments[k].id == id
    ensures forall j :: 0 <= j < k ==> comments[j].id != id
  {
    if comments == [] || comments[0].id == id then 0 else 1 + FirstWithId(comments[1..], id)
  }

  /** The first comment of the batch with the id (`Array.prototype.find`). */
  function Find(comments: seq<Comment>, id: string): (r: Option<Comment>)
    ensures r.Some? ==> r.value.id == id
    ensures r.Some? ==> exists k :: 0 <= k < |comments| && comments[k] == r.value
                                  && forall j :: 0 <= j < k ==> comments[j].id != id
    ensures r.None? <==> id !in Ids(comments)
  {
    var k := FirstWithId(comments, id);
    if k < |comments| then Some(comments[k])
    else
      assert forall j :: 0 <= j < |comments| ==> Ids(comments)[j] != id;
      None
  }

  /** What the pipeline does outside itself, in order. */
  datatype Effect =
    | MarkRead(ids: seq<string>)
    | FirstInteraction(handle: string)
    | CommentMemory(commentId: string, message: string)
    | ReplyMemory(replyTo: string, text: Option<string>)
    | PostReply(replyTo: string, text: Option<string>, animation: string)

  /**
   * The answers of everything the pipeline waits on: the selection model
   * call, the memory lookup for the author (how many memories it found), the
   * reply generation (the reply's text, if any), the animation model call and
   * the POST of the reply to the server. `postFailure` is the message of a
   * POST that rejects (a network failure); a POST that resolves, whatever its
   * status, is `None`, since a non-200 status is only logged.
   */
  datatype ReplyOracle = ReplyOracle(
    selection: Result<string>,
    priorMemories: Result<nat>,
    response: Result<Option<string>>,
    animation: Result<string>,
    postFailure: Option<string>)

  /** What `processComments` resolves to: the batch's ids, or the batch itself when nothing was answered. */
  datatype Returned = CommentIds(ids: seq<string>) | AllComments(comments: seq<Comment>)

  /** The result (an error when the pipeline rejects) and the effects performed before it ended. */
  datatype Processed = Processed(result: Result<Returned>, effects: seq<Effect>)

  /** `responseContent.text?.trim()`. */
  function TrimmedText(text: Option<string>): (r: Option<string>)
  {
    match text
    case None => None
    case Some(t) => Some(Trim(t))
  }

  /**
   * The memories stored about the chosen comment before a reply is generated:
   * a first interaction when the author has no memories yet, and the comment
   * itself when it has text.
   */
  function Remembered(chosen: Comment, oracle: ReplyOracle, before: seq<Effect>): (r: seq<Effect>)
    ensures |before| <= |r| <= |before| + 2 && r[..|before|] == before
  {
    var first := if chosen.message.Some? && oracle.priorMemories == Ok(0) then [FirstInteraction(chosen.handle)] else [];
    var memo := if Truthy(chosen.message) then [CommentMemory(chosen.id, chosen.message.value)] else [];
    before + first + memo
  }

  /** The part of the pipeline that runs once a comment of the batch was chosen. */
  function Reply(comments: seq<Comment>, chosen: Comment, oracle: ReplyOracle, before: seq<Effect>): (p: Processed)
    ensures p.result.Ok? ==> p.result.value == CommentIds(Ids(comments))
  {
    var stored := Remembered(chosen, oracle, before);
    match oracle.response
    case Err(m) => Processed(Err(m), stored)
    case Ok(text) =>
      var replyText := TrimmedText(text);
      var withReply := stored + [ReplyMemory(chosen.id, replyText)];
      match oracle.animation
      case Err(m) => Processed(Err(m), withReply)
      case Ok(animation) =>
        var withPost := withReply + [PostReply(chosen.id, replyText, animation)];
        match oracle.postFailure
        case Some(m) => Processed(Err(m), withPost)
        case None => Processed(Ok(CommentIds(Ids(comments))), withPost)
  }

  /**
   * `processComments`: mark the batch read, choose one comment (the only one,
   * or by the model), and when it is found in the batch store memories, build
   * the reply and post it with its animation.
   */
  function ProcessComments(comments: seq<Comment>, oracle: ReplyOracle): (p: Processed)
    ensures p.result.Ok? && p.result.value.AllComments? ==> p.result.value.comments == comments
  {
    if comments == [] then Processed(Ok(CommentIds([])), [])
    else
      var marked := [MarkRead(Ids(comments))];
      var selection := if |comments| == 1 then Ok(Some(comments[0].id))
                       else SelectCommentToRespondTo(comments, oracle.selection);
      match selection
      case Err(m) => Processed(Err(m), marked)
      case Ok(choice) =>
        if !Truthy(choice) then Processed(Ok(AllComments(comments)), marked)
        else match Find(comments, choice.value)
          case None => Processed(Ok(AllComments(comments)), marked)
          case Some(chosen) => Reply(comments, chosen, oracle, marked)
  }

  /** How many posts a list of effects makes. */
  function Posts(effects: seq<Effect>): nat
  {
    if effects == [] then 0
    else Posts(effects[..|effects| - 1]) + if effects[|effects| - 1].PostReply? then 1 else 0
  }

  lemma {:induction false} PostsAppend(a: seq<Effect>, b: seq<Effect>)
    ensures Posts(a + b) == Posts(a) + Posts(b)
    decreases |b|
  {
    if b == [] {
      assert a + b == a;
    } else {
      assert (a + b)[..|a + b| - 1] == a + b[..|b| - 1];
      PostsAppend(a, b[..|b| - 1]);
    }
  }

  /** An empty batch resolves to no ids and does nothing. */
  lemma EmptyBatchDoesNothing(oracle: ReplyOracle)
    ensures ProcessComments([], oracle) == Processed(Ok(CommentIds([])), [])
  {
  }

  /** A non-empty batch is first marked read, as a whole. */
  lemma BatchMarkedReadFirst(comments: seq<Comment>, oracle: ReplyOracle)
    requires comments != []
    ensures var p := ProcessComments(comments, oracle);
            p.effects != [] && p.effects[0] == MarkRead(Ids(comments))
  {
  }

  /** A lone comment is chosen without asking the model. */
  lemma SingleCommentIgnoresSelector(c: Comment, oracle: ReplyOracle, selection: Result<string>)
    ensures ProcessComments([c], oracle) == ProcessComments([c], oracle.(selection := selection))
  {
  }

  /**
   * When the model declines, or names an id that is not in the batch, the
   * batch comes back and nothing beyond marking it read happens.
   */
  lemma NoChoiceNoReply(comments: seq<Comment>, oracle: ReplyOracle)
    requires |comments| > 1
    requires oracle.selection == Ok(NoneSentinel) || (oracle.selection.Ok? && oracle.selection.value !in Ids(comments))
    ensures ProcessComments(comments, oracle) == Processed(Ok(AllComments(comments)), [MarkRead(Ids(comments))])
  {
  }

  /** A model that rejects while choosing rejects the whole pipeline, after the batch was marked read. */
  lemma SelectionRejectionPropagates(comments: seq<Comment>, oracle: ReplyOracle)
    requires |comments| > 1 && oracle.selection.Err?
    ensures ProcessComments(comments, oracle) == Processed(Err(oracle.selection.message), [MarkRead(Ids(comments))])
  {
  }

  lemma NoPostsIn(effects: seq<Effect>)
    requires forall e :: e in effects ==> !e.PostReply?
    ensures Posts(effects) == 0
  {
    if effects != [] {
      var init := effects[..|effects| - 1];
      assert forall e :: e in init ==> e in effects;
      assert effects[|effects| - 1] in effects;
      NoPostsIn(init);
    }
  }

  /** Storing memories posts nothing. */
  lemma RememberedMakesNoPost(chosen: Comment, oracle: ReplyOracle, before: seq<Effect>)
    ensures Posts(Remembered(chosen, oracle, before)) == Posts(before)
  {
    var first := if chosen.message.Some? && oracle.priorMemories == Ok(0) then [FirstInteraction(chosen.handle)] else [];
    var memo := if Truthy(chosen.message) then [CommentMemory(chosen.id, chosen.message.value)] else [];
    NoPostsIn(first);
    NoPostsIn(memo);
    PostsAppend(before, first);
    PostsAppend(before + first, memo);
  }

  /**
   * Once a comment is chosen, at most one post follows, last, to that
   * comment, and exactly when both the reply and the animation were
   * generated; the pipeline then resolves to the batch ids unless the POST
   * itself rejected, in which case it rejects with that message.
   */
  lemma {:induction false} ReplyPostsAtMostOnce(comments: seq<Comment>, chosen: Comment, oracle: ReplyOracle, before: seq<Effect>)
    requires Posts(before) == 0
    ensures var p := Reply(comments, chosen, oracle, before);
            && Posts(p.effects) <= 1
            && (Posts(p.effects) == 1 <==> oracle.response.Ok? && oracle.animation.Ok?)
            && (Posts(p.effects) == 1 ==>
                  && p.effects[|p.effects| - 1] == PostReply(chosen.id, TrimmedText(oracle.response.value), oracle.animation.value)
                  && p.result == if oracle.postFailure.None? then Ok(CommentIds(Ids(comments)))
                                 else Err(oracle.postFailure.value))
  {
    var stored := Remembered(chosen, oracle, before);
    var p := Reply(comments, chosen, oracle, before);
    RememberedMakesNoPost(chosen, oracle, before);
    if oracle.response.Err? {
      assert p.effects == stored;
    } else {
      var reply := [ReplyMemory(chosen.id, TrimmedText(oracle.response.value))];
      assert Posts(stored + reply) == 0 by {
        assert (stored + reply)[..|stored + reply| - 1] == stored;
      }
      if oracle.animation.Err? {
        assert p.effects == stored + reply;
      } else {
        var post := [PostReply(chosen.id, TrimmedText(oracle.response.value), oracle.animation.value)];
        assert p.effects == stored + reply + post;
        assert (stored + reply + post)[..|stored + reply + post| - 1] == stored + reply;
      }
    }
  }

  /**
   * At most one reply is posted, as the last effect, to a comment of the
   * batch, carrying the trimmed generated text; after a post the pipeline
   * resolves to the batch's ids, unless the POST itself rejected.
   */
  lemma PostGoesToBatchMember(comments: seq<Comment>, oracle: ReplyOracle)
    ensures var p := ProcessComments(comments, oracle);
            && Posts(p.effects) <= 1
            && (Posts(p.effects) == 1 ==>
                  var e := p.effects[|p.effects| - 1];
                  && e.PostReply?
                  && e.replyTo in Ids(comments)
                  && oracle.response.Ok? && e.text == TrimmedText(oracle.response.value)
                  && oracle.animation == Ok(e.animation)
                  && p.result == if oracle.postFailure.None? then Ok(CommentIds(Ids(comments)))
                                 else Err(oracle.postFailure.value))
  {
    if comments != [] {
      var marked := [MarkRead(Ids(comments))];
      NoPostsIn(marked);
      var selection := if |comments| == 1 then Ok(Some(comments[0].id))
                       else SelectCommentToRespondTo(comments, oracle.selection);
      if selection.Ok? && Truthy(selection.value) && Find(comments, selection.value.value).Some? {
        var chosen := Find(comments, selection.value.value).value;
        ReplyPostsAtMostOnce(comments, chosen, oracle, marked);
        var k :| 0 <= k < |comments| && comments[k] == chosen;
        assert Ids(comments)[k] == chosen.id;
      }
    }
  }

  /** The effects of one read of the comment feed, and whether the read watermark moves to now. */
  datatype ChatRead = ChatRead(effects: seq<Effect>, advanced: bool)

  /**
   * `readChatAndReply`: a non-empty batch is processed, and the watermark
   * moves unless that processing rejected.  `fetched` is the unread batch the
   * feed helper resolves to; that helper never rejects, and a failed request
   * or an absent list both arrive here as the empty batch.
   */
  function ReadChat(fetched: seq<Comment>, oracle: ReplyOracle): (c: ChatRead)
    ensures fetched == [] ==> c == ChatRead([], true)
    ensures c.advanced <==> fetched == [] || ProcessComments(fetched, oracle).result.Ok?
  {
    if fetched == [] then ChatRead([], true)
    else
      var p := ProcessComments(fetched, oracle);
      ChatRead(p.effects, p.result.Ok?)
  }

  /**
   * The watermark moves after every read whose processing completed, and
   * after a failed fetch, which reads as an empty batch, so comments written
   * while the feed was unreachable are skipped.  It stays where it was when
   * the model rejects while choosing, even though the batch was already
   * marked read.
   */
  lemma WatermarkFollowsCompletion(fetched: seq<Comment>, oracle: ReplyOracle)
    ensures var c := ReadChat(fetched, oracle);
            && (fetched == [] ==> c == ChatRead([], true))
            && (|fetched| > 1 && oracle.selection.Err? ==> c == ChatRead([MarkRead(Ids(fetched))], false))
            && (fetched != [] ==> c.effects == ProcessComments(fetched, oracle).effects)
            && (c.advanced <==> fetched == [] || ProcessComments(fetched, oracle).result.Ok?)
  {
    if |fetched| > 1 && oracle.selection.Err? {
      SelectionRejectionPropagates(fetched, oracle);
    }
  }

  /**
   * A lone comment whose reply and animation were generated is always posted
   * to, and the watermark then moves exactly when that POST resolved: a POST
   * that rejects rejects the whole processing, and the comment, already
   * marked read, is not read again either.
   */
  lemma PostOutcomeDecidesWatermark(c: Comment, oracle: ReplyOracle)
    requires c.id != "" && oracle.response.Ok? && oracle.animation.Ok?
    ensures var r := ReadChat([c], oracle);
            && Posts(r.effects) == 1
            && (r.advanced <==> oracle.postFailure.None?)
  {
    var marked := [MarkRead(Ids([c]))];
    NoPostsIn(marked);
    assert Find([c], c.id) == Some(c);
    ReplyPostsAtMostOnce([c], c, oracle, marked);
  }

  // ---------------------------------------------------------------- agent chat room

  /** One message of the shared agent chat room. */
  datatype RoomMessage = RoomMessage(id: string, agentId: string, agentName: string, message: string)

  /** What the room rule decides about the latest message. */
  datatype ChatDecision =
    | Ignore                     // not in the room, nothing fetched, or already handled
    | MarkOwn(id: string)        // our own message: remember it without answering
    | Answer(latest: RoomMessage)

  /**
   * The rule of `readAgentChatAndReply` before the model is asked: only the
   * latest message matters; it is skipped when it was already handled, and
   * remembered without an answer when this agent wrote it.  `fetched` is
   * None when the fetch rejected or reported failure.
   */
  function DecideAgentChat(isInChat: bool, fetched: Option<seq<RoomMessage>>, lastId: Option<string>, selfId: string): (d: ChatDecision)
    ensures d.Answer? ==> d.latest.agentId != selfId && lastId != Some(d.latest.id)
  {
    if !isInChat || fetched.None? || fetched.value == [] then Ignore
    else
      var latest := fetched.value[|fetched.value| - 1];
      if lastId == Some(latest.id) then Ignore
      else if latest.agentId == selfId then MarkOwn(latest.id)
      else Answer(latest)
  }

  /** The agent only answers the latest message, never one it wrote, never one already handled. */
  lemma NeverAnswersItself(isInChat: bool, fetched: Option<seq<RoomMessage>>, lastId: Option<string>, selfId: string)
    ensures match DecideAgentChat(isInChat, fetched, lastId, selfId)
            case Answer(m) =>
              && isInChat && fetched.Some? && fetched.value != []
              && m == fetched.value[|fetched.value| - 1]
              && m.agentId != selfId && lastId != Some(m.id)
            case MarkOwn(id) =>
              && fetched.Some? && fetched.value != []
              && id == fetched.value[|fetched.value| - 1].id
              && fetched.value[|fetched.value| - 1].agentId == selfId
            case Ignore => true
  {
  }

  /** Once the latest message is remembered, the same room contents are ignored. */
  lemma HandledMessageIsIgnored(isInChat: bool, fetched: Option<seq<RoomMessage>>, lastId: Option<string>, selfId: string)
    ensures match DecideAgentChat(isInChat, fetched, lastId, selfId)
            case Answer(m) => DecideAgentChat(isInChat, fetched, Some(m.id), selfId) == Ignore
            case MarkOwn(id) => DecideAgentChat(isInChat, fetched, Some(id), selfId) == Ignore
            case Ignore => true
  {
  }

  /** Earlier messages of the room do not change the decision. */
  lemma OnlyLatestMatters(isInChat: bool, earlier: seq<RoomMessage>, latest: RoomMessage, lastId: Option<string>, selfId: string)
    ensures DecideAgentChat(isInChat, Some(earlier + [latest]), lastId, selfId)
         == DecideAgentChat(isInChat, Some([latest]), lastId, selfId)
  {
  }

  /** The room state after one turn of the rule, and the text handed to the room, if any. */
  datatype AgentChatTurn = AgentChatTurn(lastId: Option<string>, advanced: bool, posted: Option<string>)

  /**
   * `readAgentChatAndReply` with the model's parsed reply text (`Err` when
   * the model call rejected, `None` when no JSON object was found).  The
   * room's post helper reports failure as a value and never rejects, and its
   * result is not looked at, so a truthy reply is handed to the room and then
   * both the remembered id and the read watermark move.  Our own latest
   * message is remembered without an answer and without moving the watermark.
   */
  function AgentChat(isInChat: bool, fetched: Option<seq<RoomMessage>>, lastId: Option<string>, selfId: string,
                     reply: Result<Option<string>>): (t: AgentChatTurn)
    ensures t.posted.Some? ==> t.posted.value != ""
  {
    match DecideAgentChat(isInChat, fetched, lastId, selfId)
    case Ignore => AgentChatTurn(lastId, false, None)
    case MarkOwn(id) => AgentChatTurn(Some(id), false, None)
    case Answer(m) =>
      if reply.Ok? && Truthy(reply.value) then AgentChatTurn(Some(m.id), true, reply.value)
      else AgentChatTurn(lastId, false, None)
  }

  /**
   * Every answered message is answered once: a turn that hands a reply to the
   * room remembers the latest message's id and moves the watermark, and from
   * then on the same room contents produce no post and no change, whatever the
   * model answers next.  A turn that posts nothing moves nothing but the id of
   * our own message.
   */
  lemma AnsweredAtMostOnce(isInChat: bool, fetched: Option<seq<RoomMessage>>, lastId: Option<string>, selfId: string,
                           reply: Result<Option<string>>, reply': Result<Option<string>>)
    ensures var t := AgentChat(isInChat, fetched, lastId, selfId, reply);
            && (t.posted.Some? ==>
                  && fetched.Some? && fetched.value != []
                  && t.lastId == Some(fetched.value[|fetched.value| - 1].id) && t.advanced
                  && AgentChat(isInChat, fetched, t.lastId, selfId, reply') == AgentChatTurn(t.lastId, false, None))
            && (t.posted.None? ==> !t.advanced)
            && (t.lastId != lastId ==>
                  AgentChat(isInChat, fetched, t.lastId, selfId, reply') == AgentChatTurn(t.lastId, false, None))
  {
    HandledMessageIsIgnored(isInChat, fetched, lastId, selfId);
  }

  /** Nothing is posted in answer to this agent's own message. */
  lemma NoPostToOwnMessage(isInChat: bool, earlier: seq<RoomMessage>, latest: RoomMessage, lastId: Option<string>,
                           reply: Result<Option<string>>)
    ensures AgentChat(isInChat, Some(earlier + [latest]), lastId, latest.agentId, reply).posted == None
  {
  }
}
