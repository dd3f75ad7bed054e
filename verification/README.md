# Borp streaming client — a Dafny model

This project models the core of the Borp streaming client of the Bor agent
framework. The client is an agent that streams on the Borp platform. It
repeatedly runs *task cycles*: it offers a list of tasks to a language model,
gets back a plan, runs the planned tasks one after the other and records the
cycle in a bounded task history. From that history it computes statistics:
the average cycle duration, per-task success counts and a ranking of the most
time-consuming tasks.

Two of the tasks are *structured generators*:

- a story that advances by percentage until it reaches 100;
- a content plan that is adopted on its first step and then followed.

Both share a five-entry thought history. Two further tasks are reply
pipelines:

- one for viewer comments: mark the batch read, choose one comment, store
  memories, post a reply;
- one for the shared agent chat room: answer the latest message of another
  agent, once.

Also modelled:

- the key/value configuration reader that supplies the subject and the mode;
- the two selection rules of the agent's start-up code: resolving the
  `--characters` paths, and choosing a model provider's API token.

Everything the client waits on is a parameter of the model:

- the language model's replies (an `Err` is a rejected call);
- `JSON.parse` (a function returning `None` when the parse throws);
- the clock readings;
- for each planned task, the inputs of the handler its name selects;
- the answers of the memory store and of the HTTP endpoints.

Mutable objects are Dafny classes. `BorpClient` has the client's fields,
`ConfigReader` has its map, and `ConfigRegistry` has the static singleton.
Each state-changing method states its whole new state through
`Snapshot()`, and the properties are proved about the pure functions the
methods are tied to.

Modules:

- `Wrappers`: `Option`, `Result` and JavaScript truthiness of a string.
- `Strings`: `trim`, `split`/`join` and removal of the ```` ```json ```` fence.
- `Config`: the configuration reader.
- `Agent`: the start-up rules.
- `History`: task records, cycle entries and the history invariant.
- `Statistics`: the three statistics.
- `Thoughts`: the bounded thought history.
- `Structured`: the story and content steps and their drivers.
- `Comments`: the comment pipeline and the agent chat room rule.
- `Borp`: the task `switch` and the `BorpClient` class.

Behaviour worth noting:

- The task cycle runs, for each planned task, the handler its name selects.
  The chat task may move the read watermark. The story task may change the
  story state and the thought history, and its rejection is recorded as the
  task's failure. The content task may change the content plan and the
  thought history.
- A planned task name the dispatch `switch` does not know is recorded as
  completed. It is not skipped.
- Story progress and the content plan's `currentStep` are assigned from the
  model's reply. They can go down (`StoryProgressMayRegress`,
  `ContentStepMayRegress`).
- The story state is not reset between story runs. A run starts from
  whatever the previous one left.
- The comment-feed watermark moves whenever processing did not reject. The
  feed helper never rejects: a failed request reads as an empty batch, so
  the watermark moves past comments written while the feed was unreachable.
  The POST of a reply is not guarded: when it rejects, processing rejects
  and the watermark stays, although the batch was already marked read. A
  non-200 answer to that POST is only logged.
- The agent chat handler moves the same watermark, and remembers the
  answered message, as soon as it has handed a reply to the room. The post
  helper reports failure as a value that is never looked at, so a failed
  post is not retried.
- `refreshConfig` re-reads only the subject. The mode keeps the value read
  at construction. When the file cannot be read, the reload has already
  emptied the map and then rethrows, so the subject keeps its value and the
  refresh fails.

## Model

| member | source | states |
|---|---|---|
| Strings.Trim | packages/client-borp/src/utils/configReader.ts:32-36 | the trimmed text neither starts nor ends with a whitespace or line-terminator character and holds only characters of the input |
| Strings.TrimIsInfixBetweenBlanks | packages/client-borp/src/utils/configReader.ts:32-36 | the trimmed text is the infix of the input between a whitespace-only prefix and a whitespace-only suffix; with its visible ends, nothing more or less is cut |
| Strings.TrimStart | packages/client-borp/src/utils/configReader.ts:36 | the result is a suffix of the input, every removed character is whitespace and the first kept one is not |
| Strings.TrimEnd | packages/client-borp/src/utils/configReader.ts:36 | the result is a prefix of the input, every removed character is whitespace and the last kept one is not |
| Strings.TrimKeepsFirstVisible | packages/client-borp/src/index.ts:1300-1303 | text that starts with a visible character keeps it first after trimming, whatever follows |
| Strings.TrimStartConcat | packages/client-borp/src/index.ts:1300-1303 | trimming the start of `a + b` trims only `a` when `a` holds a visible character |
| Strings.Split | packages/client-borp/src/utils/configReader.ts:28 | `split` returns at least one piece and no piece holds the separator |
| Strings.JoinSplit | packages/client-borp/src/utils/configReader.ts:28 | joining the pieces of a split with the same separator gives the text back |
| Strings.SplitWithoutSeparator | packages/client-borp/src/utils/configReader.ts:36 | a text without the separator splits into itself alone |
| Strings.SplitAtSeparator | packages/client-borp/src/utils/configReader.ts:36 | the pieces of `a` + separator + `b` are `a` followed by the pieces of `b` |
| Strings.StripFenceOfFenced | packages/client-borp/src/index.ts:1239-1241 | removing the json fence from a fenced body gives the body back |
| Strings.StripFenceWithoutFence | packages/client-borp/src/index.ts:1239-1241 | a text with neither the opening nor the closing fence is left unchanged |
| Strings.StripFenceIsInfix | packages/client-borp/src/index.ts:1239-1241 | fence removal only cuts a prefix and a suffix: the result is an infix of the reply |
| Strings.StripFence | packages/client-borp/src/index.ts:1239-1241 | removing the fence never makes the text longer |
| Config.Lines | packages/client-borp/src/utils/configReader.ts:28 | the file always has at least one line |
| Config.ParseLine | packages/client-borp/src/utils/configReader.ts:32-39 | comment and blank lines store nothing; a stored key and value are non-empty and hold no `=` |
| Config.KeyIsFirstPiece | packages/client-borp/src/utils/configReader.ts:36 | for a line `k=tail`, the key piece is `k` and the line is not a comment |
| Config.ParseKeyAndSecondPiece | packages/client-borp/src/utils/configReader.ts:36-39 | a line `k=tail` stores the trimmed `k` with the trimmed second piece |
| Config.FirstTwoPiecesOnly | packages/client-borp/src/utils/configReader.ts:36-39 | `k=v=rest` stores exactly what `k=v` stores: pieces after the second are dropped |
| Config.CommentLinesIgnored | packages/client-borp/src/utils/configReader.ts:32-34 | appending a comment or blank line does not change the loaded map |
| Config.LastDefinitionWins | packages/client-borp/src/utils/configReader.ts:30-40 | a key maps to the value of the last line that defines it |
| Config.UndefinedKeyUntouched | packages/client-borp/src/utils/configReader.ts:30-40 | a key no line defines keeps its previous presence and value |
| Config.LoadLinesValid | packages/client-borp/src/utils/configReader.ts:37-39 | loading never stores an empty key or value |
| Config.LoadLines | packages/client-borp/src/utils/configReader.ts:30-40 | loading lines over a map only adds or overwrites keys: every key present before is still present |
| Config.ConfigReader.constructor | packages/client-borp/src/utils/configReader.ts:10-16 | the new reader holds exactly the file's entries, all non-empty |
| Config.ConfigReader.LoadConfig | packages/client-borp/src/utils/configReader.ts:25-50 | a readable file is stored over the current map line by line; an unreadable one reports failure and changes nothing |
| Config.ConfigReader.GetValue | packages/client-borp/src/utils/configReader.ts:52-54 | a stored key yields its value; the empty string is returned exactly for absent keys |
| Config.LineWithVisibleKeyIsNoComment | packages/client-borp/src/utils/configReader.ts:32-34 | a line whose key has visible text not starting with '#' is never skipped as a comment or blank line |
| Config.ConfigReader.ReloadConfig | packages/client-borp/src/utils/configReader.ts:56-59 | the map is cleared and then holds exactly the file's entries, or stays empty when the read fails |
| Config.ConfigRegistry.constructor | packages/client-borp/src/utils/configReader.ts:6 | no instance exists yet |
| Config.ConfigRegistry.GetInstance | packages/client-borp/src/utils/configReader.ts:18-23 | the first successful call creates the single reader; every later call returns that same reader |
| Agent.PrefixTestsExclusive | Bor-Core/packages/agent/src/index.ts:55-66 | at most one of the three prefix tests matches a path |
| Agent.RewriteReachesResolvedDirectory | Bor-Core/packages/agent/src/index.ts:55-66 | `../characters`, `characters` and `./characters` are all rewritten to `../../characters`, rest unchanged |
| Agent.RewriteParent | Bor-Core/packages/agent/src/index.ts:56-58 | a `../characters` path gains one `../` |
| Agent.RewriteBare | Bor-Core/packages/agent/src/index.ts:59-61 | a `characters` path gains `../../` |
| Agent.RewriteDot | Bor-Core/packages/agent/src/index.ts:62-64 | a `./characters` path gains `../.` |
| Agent.OtherPathsUnchanged | Bor-Core/packages/agent/src/index.ts:65 | a path matching no prefix is kept as it is |
| Agent.RewritePath | Bor-Core/packages/agent/src/index.ts:55-65 | a path is either kept or only gains a prefix, the original path staying at its end |
| Agent.RewriteIdempotent | Bor-Core/packages/agent/src/index.ts:55-66 | rewriting an already rewritten path changes nothing |
| Agent.CharacterPaths | Bor-Core/packages/agent/src/index.ts:52-66 | an absent argument gives no list; otherwise there is one path per comma-separated piece, and at least one |
| Agent.CharacterPathsArePieces | Bor-Core/packages/agent/src/index.ts:52-66 | the i-th path is the i-th comma-separated piece, trimmed and rewritten, in order |
| Agent.LoadedFrom | Bor-Core/packages/agent/src/index.ts:70-96 | never more characters than paths |
| Agent.LoadedFromAppend | Bor-Core/packages/agent/src/index.ts:70-96 | loading two path lists in a row loads each in turn: order is kept |
| Agent.LoadedFromAllLoad | Bor-Core/packages/agent/src/index.ts:70-96 | when every path loads, the i-th character comes from the i-th path |
| Agent.LoadCharacters | Bor-Core/packages/agent/src/index.ts:48-104 | the characters that load, in path order, or the default character alone when none loads; never empty |
| Agent.OrChainFirstTruthy | Bor-Core/packages/agent/src/index.ts:112-126 | an `\|\|` chain yields its first truthy value |
| Agent.OrChainNoneTruthy | Bor-Core/packages/agent/src/index.ts:112-126 | with no truthy value the chain yields its last value |
| Agent.TokenIsFirstTruthyKey | Bor-Core/packages/agent/src/index.ts:106-150 | the token is the first non-empty value in the provider's key order; if none is non-empty it is whatever the last key holds; unlisted providers get none |
| Agent.GetTokenForProvider | Bor-Core/packages/agent/src/index.ts:106-150 | a provider without a case gets no token, and a token is always a value of the character secrets or the settings |
| Agent.SecretBeforeSetting | Bor-Core/packages/agent/src/index.ts:111-115 | a non-empty character secret wins over the global setting, which is used otherwise |
| Agent.UnlistedProvidersGetNoToken | Bor-Core/packages/agent/src/index.ts:110-150 | a provider without a case gets no token |
| Thoughts.PushBounded | packages/client-borp/src/index.ts:148-153 | the new thought is last and a history within five stays within five |
| Thoughts.LastN | packages/client-borp/src/index.ts:145 | the window holds `min(n, length)` elements |
| Thoughts.PushBoundedIsWindow | packages/client-borp/src/index.ts:148-153 | push-then-shift gives the newest five of the history plus the thought; a full history loses exactly its oldest thought |
| Thoughts.PushAllKeepsNewest | packages/client-borp/src/index.ts:144-153 | after any number of pushes the history is the newest five of everything seen |
| Thoughts.LastNOfPush | packages/client-borp/src/index.ts:148-153 | windowing before or after a push gives the same window |
| History.RecordOf | packages/client-borp/src/index.ts:277-311 | a task's record carries its name and `end - start` as duration; only the story task can carry an error |
| History.PlanRecords | packages/client-borp/src/index.ts:246-330 | one record per planned task, in plan order |
| History.RunsOf | packages/client-borp/src/index.ts:246-330 | the i-th run is what the clock and handler did for the i-th task |
| History.PlanRecordsStep | packages/client-borp/src/index.ts:280-311 | running one more task appends exactly its record |
| History.Succeeded | packages/client-borp/src/index.ts:280-285 | completed tasks come from the run and carry no error |
| History.FailedOf | packages/client-borp/src/index.ts:305-311 | failed tasks come from the run and carry an error |
| History.RecordJoins | packages/client-borp/src/index.ts:280-311 | a new record joins the completed list or the failed list, according to whether it has an error |
| History.PartitionSizes | packages/client-borp/src/index.ts:280-311 | completed plus failed records account for every task that ran |
| History.SucceededKeeps | packages/client-borp/src/index.ts:280-285 | a record without an error is among the completed tasks |
| History.FinishedEntryAccounts | packages/client-borp/src/index.ts:228-334 | a finished entry is completed, its duration is end minus start, and every planned task is recorded once |
| History.UnknownTaskCompletes | packages/client-borp/src/index.ts:259-285 | a name the `switch` does not know is recorded as completed |
| History.KeepLast | packages/client-borp/src/index.ts:386-388 | the history is cut to its newest hundred entries, in order |
| History.KeepLastKeepsNewest | packages/client-borp/src/index.ts:386-388 | the cycle just appended survives the cut and stays last |
| History.MarkCurrentFailedTouchesOnlyLast | packages/client-borp/src/index.ts:391-397 | the cycle error handler changes at most the last entry, and only one still in progress |
| History.MarkCurrentFailed | packages/client-borp/src/index.ts:391-397 | the error handler never adds or removes an entry |
| History.CycleErrorChangesNothing | packages/client-borp/src/index.ts:391-397 | between cycles no entry is in progress, so the error handler changes nothing |
| History.FinishedCycleKeepsInvariant | packages/client-borp/src/index.ts:228-388 | appending a finished cycle and cutting to a hundred keeps the history invariant (bounded, none in progress, balanced, only story tasks fail) |
| Statistics.TimedDurations | packages/client-borp/src/index.ts:1592 | only cycles whose duration is set and non-zero count |
| Statistics.SumBounds | packages/client-borp/src/index.ts:1595 | a sum of bounded durations lies between count times the bounds |
| Statistics.CalculateAverageCycleDuration | packages/client-borp/src/index.ts:1591-1597 | 0 when no cycle counts, otherwise the sum of counted durations over their count |
| Statistics.MeanWithinBounds | packages/client-borp/src/index.ts:1595-1596 | the mean of bounded values lies within the bounds |
| Statistics.AverageWithinBounds | packages/client-borp/src/index.ts:1591-1597 | the average lies between the shortest and the longest counted cycle |
| Statistics.CountNameAppend | packages/client-borp/src/index.ts:1607-1621 | counting over a concatenation adds the counts |
| Statistics.NoRunsNoDuration | packages/client-borp/src/index.ts:1649-1653 | a name that never ran has total duration zero |
| Statistics.CountNameZero | packages/client-borp/src/index.ts:1607-1621 | a name carried by no record has count zero |
| Statistics.Names | packages/client-borp/src/index.ts:1641-1658 | the ranked names are exactly those that ran, each once |
| Statistics.Tally | packages/client-borp/src/index.ts:1608-1620 | each record adds one to its name's success or failure counter; names are added on first sight |
| Statistics.CalculateTaskSuccessRates | packages/client-borp/src/index.ts:1599-1633 | a name has stats iff it ran; success and failed equal its completed and failed record counts over the whole history |
| Statistics.OnlyStoryTaskFails | packages/client-borp/src/index.ts:259-311 | in a history the cycle produced, any task other than the story task has zero failures |
| Statistics.TimingOf | packages/client-borp/src/index.ts:1659-1664 | a row carries its name, its execution count and its total duration |
| Statistics.Timings | packages/client-borp/src/index.ts:1658-1664 | one row per name, in name order |
| Statistics.InsertByTotal | packages/client-borp/src/index.ts:1665 | insertion adds exactly the new row |
| Statistics.InsertStaysBelow | packages/client-borp/src/index.ts:1665 | insertion keeps every row within a bound all inputs respect |
| Statistics.SortedCons | packages/client-borp/src/index.ts:1665 | a row at least as large as every row of a sorted list can go in front |
| Statistics.InsertKeepsSorted | packages/client-borp/src/index.ts:1665 | inserting into a sorted list keeps it sorted by total, largest first |
| Statistics.SortByTotalDesc | packages/client-borp/src/index.ts:1665 | the sort is a permutation of its input |
| Statistics.SortIsSorted | packages/client-borp/src/index.ts:1665 | the sort orders rows by total duration, largest first |
| Statistics.AddOutcome | packages/client-borp/src/index.ts:1648-1654 | folding one record keeps names and totals equal to the aggregate of all records seen |
| Statistics.AddCycle | packages/client-borp/src/index.ts:1647-1655 | folding a cycle's completed then failed records keeps the aggregate exact |
| Statistics.Aggregate | packages/client-borp/src/index.ts:1641-1655 | the scan yields the aggregate of every record of every cycle |
| Statistics.RankingRows | packages/client-borp/src/index.ts:1658-1665 | the ranking has exactly one row per name that ran, each with that name's own numbers |
| Statistics.IdentifyMostTimeConsumingTasks | packages/client-borp/src/index.ts:1635-1666 | every task that ran gets its own count and total, and the rows are sorted by total duration, largest first |
| Structured.CleanResponseOfFenced | packages/client-borp/src/index.ts:1300-1303 | a fenced reply reaches the parser as its trimmed body |
| Structured.StoryStepClamps | packages/client-borp/src/index.ts:1308-1312 | progress is the reported value capped at 100, the phase is the reported phase, and the story is complete exactly at 100 |
| Structured.StoryStep | packages/client-borp/src/index.ts:1299-1338 | progress never exceeds 100, and a reply that does not parse leaves the state and the thoughts as they were |
| Structured.StoryHistoryOnlyWhileIncomplete | packages/client-borp/src/index.ts:1314-1318 | the thought is remembered exactly when the step does not complete the story |
| Structured.StoryParseFailureIsNoOp | packages/client-borp/src/index.ts:1329-1338 | an unparsable reply changes nothing and yields the fallback thought, incomplete |
| Structured.StoryProgressMayRegress | packages/client-borp/src/index.ts:1308 | a reply of 40 after 70 sets progress back to 40 |
| Structured.DriveStoryFinishesComplete | packages/client-borp/src/index.ts:424-456 | a story run only finishes at 100 percent with at least one thought told; it never catches an error; at most one thought per reply |
| Structured.DriveStory | packages/client-borp/src/index.ts:424-456 | the story driver never catches a rejection: it ends finished, rejected or out of replies |
| Structured.DriveStoryContinues | packages/client-borp/src/index.ts:428-434 | a parsed step below 100 tells its thought and the run goes on from the stepped state |
| Structured.DriveStoryStopsAtCap | packages/client-borp/src/index.ts:433-455 | a parsed step at or past 100 ends the run with that thought as its last |
| Structured.StoryOfThreeSteps | packages/client-borp/src/index.ts:424-456 | replies at 40, 70 and 100 tell three thoughts in order, finish complete, and remember the first two |
| Structured.StoryLastTwoSteps | packages/client-borp/src/index.ts:424-456 | from progress 40 with one thought told, replies at 70 and 100 tell two more and finish complete at the resolution stage |
| Structured.ContentAdoptsPlanAtStepZero | packages/client-borp/src/index.ts:1754-1759 | at step 0 a proposed plan is adopted as step 1, unfinished |
| Structured.ContentCopiesProgress | packages/client-borp/src/index.ts:1764-1771 | otherwise the plan is kept and the step and completion flag are copied from the reply |
| Structured.ContentRecordsRawThought | packages/client-borp/src/index.ts:1766-1780 | the history records the raw thought; the transition is never stored |
| Structured.ContentParseFailureIsNoOp | packages/client-borp/src/index.ts:1786-1795 | an unparsable reply changes nothing and yields the fallback thought, incomplete |
| Structured.ContentStep | packages/client-borp/src/index.ts:1745-1795 | a reply that does not parse leaves the plan and the thoughts as they were; a parsed one always records its thought |
| Structured.ContentStepMayRegress | packages/client-borp/src/index.ts:1770 | a reply can move the current step backwards |
| Structured.DriveContentFinishesComplete | packages/client-borp/src/index.ts:1799-1846 | a content run only finishes on a complete plan; a rejected call is caught and stops it; at most one thought per reply |
| Structured.DriveContent | packages/client-borp/src/index.ts:1799-1846 | the content driver never lets a rejection out: it ends finished, stopped or out of replies |
| Comments.Ids | packages/client-borp/src/index.ts:531 | the i-th id is the i-th comment's id |
| Comments.SelectionIsAnswerOrNull | packages/client-borp/src/index.ts:809-850 | an empty batch yields no choice; a choice is the model's literal answer and never `NONE`; a rejected call is the error |
| Comments.SelectCommentToRespondTo | packages/client-borp/src/index.ts:809-850 | a choice is only made for a non-empty batch and is never the `NONE` answer |
| Comments.Find | packages/client-borp/src/index.ts:580 | the result is the first comment of the batch with that id; nothing is found exactly when no comment has the id |
| Comments.EmptyBatchDoesNothing | packages/client-borp/src/index.ts:531-536 | an empty batch resolves to no ids and does nothing |
| Comments.BatchMarkedReadFirst | packages/client-borp/src/index.ts:538-543 | a non-empty batch is marked read, as a whole, before anything else |
| Comments.SingleCommentIgnoresSelector | packages/client-borp/src/index.ts:565-572 | a lone comment is chosen without asking the model |
| Comments.NoChoiceNoReply | packages/client-borp/src/index.ts:574-584 | when the model declines or names an unknown id, the batch comes back and only the mark-read happened |
| Comments.SelectionRejectionPropagates | packages/client-borp/src/index.ts:571 | a rejected selection rejects the pipeline after the batch was marked read |
| Comments.ReplyPostsAtMostOnce | packages/client-borp/src/index.ts:586-806 | once a comment is chosen, at most one post follows, last, to that comment, exactly when the reply and the animation were generated; the pipeline then resolves to the batch ids, or rejects with the POST's own failure |
| Comments.Reply | packages/client-borp/src/index.ts:586-806 | when the reply pipeline completes it resolves to the batch ids |
| Comments.Remembered | packages/client-borp/src/index.ts:594-697 | before replying, at most two memories (a first interaction, the comment itself) are appended after the effects so far, which are kept |
| Comments.RememberedMakesNoPost | packages/client-borp/src/index.ts:594-697 | storing those memories posts nothing |
| Comments.ProcessComments | packages/client-borp/src/index.ts:529-807 | when nothing was answered the batch itself comes back, unchanged |
| Comments.PostGoesToBatchMember | packages/client-borp/src/index.ts:529-807 | at most one reply is posted, last, to a batch member, with the trimmed generated text; after a post the batch ids are returned unless the POST rejected, whose message is then the error |
| Comments.PostOutcomeDecidesWatermark | packages/client-borp/src/index.ts:501-527 | a lone comment with a generated reply and animation is posted to, and the watermark moves exactly when that POST did not reject |
| Comments.WatermarkFollowsCompletion | packages/client-borp/src/index.ts:501-527 | the watermark moves after every read whose processing completed, including the empty read a failed fetch gives, and stays when processing rejected |
| Comments.ReadChat | packages/client-borp/src/index.ts:501-527 | an empty batch, which is also what a failed fetch gives, does nothing and moves the watermark; otherwise it moves exactly when processing completed |
| Comments.NeverAnswersItself | packages/client-borp/src/index.ts:1432-1469 | only the latest message is answered, never one this agent wrote, never one already handled |
| Comments.HandledMessageIsIgnored | packages/client-borp/src/index.ts:1456-1459 | once the latest id is remembered, the same room contents are ignored |
| Comments.OnlyLatestMatters | packages/client-borp/src/index.ts:1437-1469 | earlier messages do not change the decision |
| Comments.DecideAgentChat | packages/client-borp/src/index.ts:1419-1469 | an answer is only given to another agent's latest message that is not the one remembered |
| Comments.AnsweredAtMostOnce | packages/client-borp/src/index.ts:1456-1569 | a turn that hands a reply to the room remembers the latest id and moves the watermark, and the same room then produces no post and no change; a turn that posts nothing does not move the watermark |
| Comments.AgentChat | packages/client-borp/src/index.ts:1419-1576 | whatever is handed to the room is a non-empty reply |
| Comments.NoPostToOwnMessage | packages/client-borp/src/index.ts:1462-1469 | nothing is posted in answer to this agent's own message |
| Borp.OfferedTasksByMode | packages/client-borp/src/index.ts:182-214 | each mode offers its own list, an unknown mode keeps the current list, only known tasks are offered, and applying a mode twice changes nothing |
| Borp.InitialQueueIsKnownTasks | packages/client-borp/src/index.ts:89-101 | the initial list is exactly the five tasks the `switch` handles |
| Borp.PlanIsReadInsideTheFence | packages/client-borp/src/index.ts:1239-1246 | a fenced plan is parsed from its body and an unfenced one as it stands; a parse failure rejects |
| Borp.GenerateTheTaskPlan | packages/client-borp/src/index.ts:1176-1250 | a rejected model call is the plan's error, and a plan is exactly what the parser read inside the fence |
| Borp.Dispatch | packages/client-borp/src/index.ts:259-275 | only the story task can fail, and each handler field changes only through its own task: the watermark through chat, the story through the story task, the plan through the content task, the thoughts through the two structured tasks |
| Borp.CycleRecordOfTask | packages/client-borp/src/index.ts:247-311 | each task's record names and times it, and carries an error exactly when it is the story task and the story run was rejected, with that message |
| Borp.FieldsChangeOnlyThroughTheirTasks | packages/client-borp/src/index.ts:246-330 | across any prefix of a plan, a handler field is unchanged unless a task that owns it ran |
| Borp.StoryCycleCompletesStory | packages/client-borp/src/index.ts:259-285 | a story cycle whose reply reports 100 percent leaves the story complete and records the task as completed |
| Borp.BorpClient.constructor | packages/client-borp/src/index.ts:103-140 | subject and mode come from the configuration; the watermark is now; the rest starts from its initial values |
| Borp.BorpClient.UpdateThoughtHistory | packages/client-borp/src/index.ts:148-153 | only the thought history changes, to the bounded push of the thought |
| Borp.BorpClient.GetCurrentCycleStatus | packages/client-borp/src/index.ts:1584-1588 | the last entry, or none for an empty history; between cycles it is never in progress |
| Borp.BorpClient.ApplyMode | packages/client-borp/src/index.ts:182-214 | only the offered tasks change, as the mode dictates |
| History.OpenEntry | packages/client-borp/src/index.ts:228-235 | an entry just opened is in progress, has no end time or duration, and holds every record so far in one of its two lists |
| History.OpenEntryStep | packages/client-borp/src/index.ts:280-311 | running one more task appends its record to the failed list when it carries an error and to the completed list otherwise, leaving the rest of the entry alone |
| Borp.BorpClient.RecordTask | packages/client-borp/src/index.ts:247-326 | the i-th task's handler runs, the handler fields become those after i+1 tasks, and its record, carrying the handler's rejection, lands at the end of the current entry |
| Borp.BorpClient.PushRecord | packages/client-borp/src/index.ts:280-311 | the record joins the current entry's failures when it carries an error and its completed tasks otherwise; nothing else changes |
| Borp.BorpClient.RunHandler | packages/client-borp/src/index.ts:259-275 | the handler the name selects runs, the client fields become those `Dispatch` gives, and the error is the one it let out |
| Borp.BorpClient.RunPlan | packages/client-borp/src/index.ts:246-330 | the handler fields end as the handlers of the whole plan leave them, and the current entry holds one record per planned task, each in the list its outcome says |
| Borp.BorpClient.CloseCycle | packages/client-borp/src/index.ts:332-388 | the entry is closed as completed with its duration, and the history is cut to a hundred, keeping the invariant |
| Borp.BorpClient.StartTaskProcessing | packages/client-borp/src/index.ts:179-404 | the mode narrows the offer; a failed plan changes nothing else; otherwise the handlers of the plan run in order and the history gains the finished cycle, cut to a hundred; the invariant is kept |
| Borp.BorpClient.GenerateStructuredStory | packages/client-borp/src/index.ts:1251-1339 | a rejected call rejects and changes nothing; otherwise the state and history become those of one story step |
| Borp.BorpClient.StartStructuredStory | packages/client-borp/src/index.ts:424-456 | the loop ends in the state of the story run over the replies; it rejects exactly when the run was rejected, and otherwise returns the thoughts told |
| Borp.BorpClient.GenerateStructuredContent | packages/client-borp/src/index.ts:1668-1796 | a rejected call rejects and changes nothing; otherwise the plan and history become those of one content step |
| Borp.BorpClient.StartStructuredContentGeneration | packages/client-borp/src/index.ts:1799-1846 | the loop ends in the state of the content run over the replies and returns the thoughts produced |
| Borp.BorpClient.ReadChatAndReply | packages/client-borp/src/index.ts:501-527 | the effects are those of processing the batch, and the watermark moves to now exactly when the read completed |
| Borp.BorpClient.ReadAgentChatAndReply | packages/client-borp/src/index.ts:1419-1576 | the text handed to the room, the remembered id and the watermark are exactly those of the room rule |
| Borp.BorpClient.RefreshConfig | packages/client-borp/src/index.ts:1848-1854 | the configuration is reloaded; on success only the subject is re-read from it; on a failed read the map is empty, the refresh fails and the client is unchanged |

## Left out

- Network, HTTP and database calls are not modelled. This covers the
  comment fetch, marking comments read, the memory store, the room fetch and
  post, the reply POST, `_makeApiCall` and `updateStreamingStatus`. Their
  results are parameters, and `ensureConnection`, `createMemory` and `composeState` are
  taken to succeed.
- `JSON.parse`, `parseJSONObjectFromText` and prompt composition are left
  out. Parsing is a parameter returning `None` when it throws. A parsed
  reply whose fields are missing or of the wrong type (a non-numeric
  progress, for instance) is not modelled.
- `generateFreshThought`, `generateAndShareFreshThought`, the periodic
  animation and `generateSpeech` are not modelled beyond their place in the
  task `switch`. They post and log but change no client field, and they
  catch their own errors, so a task that runs them changes no field.
- `rotateSubject` and `Math.random` are left out because they are random.
- Logging, date formatting and the `toFixed` rate strings of the
  statistics are left out.
- Timers, the interval loop, `heartbeat` and the client's `start`/`stop`
  are left out. The ten-second retry after a fatal error is also left out:
  that path is reached only by a logging failure.
- The per-comment memory callbacks at index.ts lines 547-563 are not
  modelled. Each callback reads `userMessage`, `userIdUUID` and `content`
  before their `const` declarations, so it throws, and `Promise.allSettled`
  swallows the error. The model therefore creates no memory there.
- The spread of `responseContent` that can override fields of the posted
  body is left out. The post is modelled with the reply target, the trimmed
  text and the animation.
- JavaScript object key order is left out: integer-like task names are
  enumerated first. Prototype keys such as a task named `constructor` in the
  statistics records are also left out.
- Borp.BorpClient.StartStructuredStory: the source loops until the story
  completes, however many model calls that takes. The model consumes a
  finite list of replies and stops when it runs out.
- Borp.BorpClient.StartStructuredContentGeneration: this loop is also
  bounded by the finite list of replies.
- Statistics.IdentifyMostTimeConsumingTasks: rows are ordered by total
  duration, largest first, with ties kept in first-appearance order. The
  model does not prove that this matches the engine's stable sort beyond
  being a sorted permutation.
- Statistics.CalculateAverageCycleDuration,
  Statistics.CalculateTaskSuccessRates and
  Statistics.IdentifyMostTimeConsumingTasks: these take the history as an
  argument. In the source they read the client's own `taskHistory` field.
- Agent.LoadCharacters: reading the file, parsing it and importing plugins
  are one parameter. The default character is a parameter too.
- `parseArguments`, `createDirectRuntime`, `startAgent` and the rest of
  the agent's start-up are left out. They wire runtime objects together
  and hold no logic of their own.
