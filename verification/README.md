# A verified model of the agent loop, the routed chat server and their helpers

Three records of one conversation, two message queues, concurrent tools, fallback between providers, spending limits:
this project models the parts of the repository where state is spread over several places and has to stay consistent,
and proves what the design promises for every input, every schedule and every sequence of operations.

**The agent** (`packages/agent`). `ToolOutcome` says what one tool call comes to. `ToolSchedule` is the parallel
executor as a step machine whose scheduler may let any running call move. `Protocol` is an acceptor over the log of
everything a session does: events emitted, queues filled and polled, transcripts shown to the model and to the hooks.
It does not mention how the loop is written. `ProtocolFacts` proves the promises of the design of every accepted log:
transcript agreement, event grammar, tool and message brackets, tool-result pairing, queue conservation, one-at-a-time
steering, the turn bound. `AgentHost`, `ToolExecutors` (with `BatchTally`), `AgentTurn`, `AgentLoop` and
`AgentSession` are the imperative code: classes and methods that change state step by step, proved to log only
accepted actions. `RunForecast` says beforehand how far a run gets, and `AgentLoop` is proved to get exactly that far.
`AgentSession.Session` puts it all together: whatever is done with an agent, everything above holds between any two
operations.

**The server** (`apps/server`). `Budget` is the budget decision over a usage ledger; `Routing` is one streaming
attempt with its response and its records; `Requests` is the two attempt loops and sequences of requests over one
ledger; `AttemptTrace` is the bounded attempt trace.

**Helpers.** `ProxyStream` and `ProxyReader` rebuild a message from a chunked event stream
(`packages/agent/src/proxy.ts`); `Hashline` is the numbered-line printer, its stripper and the hash normal form
(`packages/hashline`); `ModelRefresh` is the single-flight refresh of a provider's model list
(`packages/ai/src/models.ts`). `Text` holds lines and trimming.

The model, the tools, the hooks, upstream providers, the clock and the arrival of queued messages are inputs: scripts
and functions over which every theorem is quantified. A run is given an endless supply of turns and arrivals, of which
only finitely many tool batches go on and finitely many messages arrive; that the nested loops then end is proved. In
whole runs streams keep their contract (`packages/ai/src/types.ts:446-453`): they send `start` at most once; what one
call does with a stream that does not is part of `AgentTurn.StreamAssistantResponse`. Messages that arrive during a
run are entered just before the next poll, which is the only place where the loop can see them, or after the run; the
facts about accepted logs allow them anywhere.

## Where the code does not do what it is meant to do

Each of these is kept as it is in the code, with the exact condition under which the promise holds.

- An upstream error event with an empty message, before anything was sent and without fallback, is mistaken for no
  failure (`apps/server/src/chat-completions-api.ts:756`): the attempt is booked twice, and an aborted request can go
  on to another provider (`Requests.LedgerShapeIff`, `Requests.SwallowedAbort`).
- The budget is read on one clock reading and the record is stamped with an earlier one, so an attempt that straddles
  midnight is charged to a day whose limit was not consulted; and a provider name with surrounding white space is
  looked up under another name than its records carry (`Budget.GateProtectsIff`, `Requests.OverspendServed`).
- A run whose hook throws after a turn reports its failure without `turn_start`, and one whose stream breaks after its
  start opens a second message bracket. The last turn of the run, which script, queues and modes foretell, decides
  both (`AgentSession.ScriptForetells`, with inputs in `AgentSession.HookThrowUnframes`,
  `AgentSession.SteeredThrowUnframes` and `AgentSession.BrokenReplyTears`); only the run in which it happens is
  affected (`ProtocolFacts.RunsAreFramed`, `ProtocolFacts.BracketsUnlessTorn`).
- A refresh function that throws before it returns a promise leaves the rejected promise in the slot for good,
  although a later call is meant to retry (`ModelRefresh.StuckIffThrewOnTheSpot`).
- A stream that sends `start` twice leaves two places in the loop context (`AgentTurn.OnePlaceIffOneStart`,
  `AgentTurn.StreamAssistantResponse`).

## Model

| member | source | states |
|---|---|---|
| ToolOutcome.FindTool | packages/agent/src/agent-loop.ts:562-577 | the tool found is in the list under that name, and none is found exactly when no tool has it |
| ToolOutcome.FirstOfItsName | packages/agent/src/agent-loop.ts:569-569 | the first tool of a name is the one that is found |
| ToolOutcome.Handled | packages/agent/src/agent-loop.ts:406-444 | how many calls a batch handles: all of them, or up to and including the first after which the signal is seen aborted, and at least one |
| ToolOutcome.FailureNeverTerminates | packages/agent/src/agent-loop.ts:544-546 | one call that is blocked, unknown, aborted in preparation or throws is enough for the batch not to terminate the run, whatever the other calls ask for |
| ToolOutcome.OutcomeTells | packages/agent/src/agent-loop.ts:562-714 | a call is an error exactly when it did not get through preparation, or the after-hook threw, or said so, or the tool threw and the hook left it alone; content, details and the wish to terminate are the tool's or the thrown text, field by field unless the hook overrides them |
| ToolOutcome.OutcomesTell | packages/agent/src/agent-loop.ts:406-449 | the results of a batch, read off the behaviour of its calls: which calls are handled, what each result says, and that the batch terminates the run exactly when it handled a call and every handled call asks for it |
| ToolOutcome.OneHandledCount | packages/agent/src/agent-loop.ts:406-444 | calls and readings of the signal fix how many calls are handled |
| ToolOutcome.AsksToRunAloneIs | packages/agent/src/agent-loop.ts:381-388 | a call asks for sequential execution exactly when the first tool of its name does |
| ToolSchedule.EveryScheduleConsistent | packages/agent/src/agent-loop.ts:461-516 | at every reachable state of every schedule each handled call has emitted one start, then its updates in order, then at most one end and that exactly when it is done; other calls have emitted nothing; a schedule may hold any update callbacks at any time |
| ToolSchedule.LateUpdatesIgnored | packages/agent/src/agent-loop.ts:628-669 | once a call has settled, its update callback changes nothing and emits nothing, whatever it is given |
| ToolSchedule.EveryHistoryTells | packages/agent/src/agent-loop.ts:461-714 | under every complete schedule each handled call has emitted exactly: its start with its arguments, its updates in order if it got to run, and an end whose payload is what its behaviour says |
| ToolSchedule.ParallelRefinesSequential | packages/agent/src/agent-loop.ts:395-516 | whatever the scheduler does, the collected outcomes in source order, the terminate flag and each call's own event history are those of sequential execution |
| ToolSchedule.MoveMakesProgress | packages/agent/src/agent-loop.ts:502-504 | every enabled move brings a batch one step nearer to completion, so every fair schedule completes |
| ToolSchedule.ProjectInTurn | packages/agent/src/agent-loop.ts:406-444 | in a trace of histories one after the other, each call's events are exactly its own history |
| ToolExecutors.RunAlone | packages/agent/src/agent-loop.ts:406-437 | a call executed alone emits exactly its start, its updates if it runs, and its end, and has the specified outcome |
| ToolExecutors.ExecuteOneCall | packages/agent/src/agent-loop.ts:406-441 | the same, followed by its result message, which enters the transcript |
| ToolExecutors.HandleInTurn | packages/agent/src/agent-loop.ts:406-444 | the loop of the sequential executor stops behind the first call that leaves the signal aborted, with the outcomes, messages and events of the calls before and including it |
| ToolExecutors.ExecuteToolCallsSequential | packages/agent/src/agent-loop.ts:395-449 | returns the outcomes of the handled calls in source order and the terminate flag, which say what the calls' behaviour says; its result messages are delivered in that order, and its tool events are each call's history one after the other |
| ToolExecutors.PrepareAll | packages/agent/src/agent-loop.ts:461-500 | the preparation pass emits and records what the step machine launches, up to the abort |
| ToolExecutors.RunConcurrently | packages/agent/src/agent-loop.ts:484-504 | for every choice of the scheduler the concurrent phase completes, and its events are the step machine's under the recorded schedule |
| ToolExecutors.DeliverResults | packages/agent/src/agent-loop.ts:502-515 | the result messages are delivered in source order, after all calls are done, without further tool events |
| ToolExecutors.ExecuteToolCallsParallel | packages/agent/src/agent-loop.ts:451-516 | for every choice of the scheduler: the messages, the flag and the transcript the sequential executor leaves, saying what the calls' behaviour says, and the events of the step machine |
| BatchTally.LaunchTally | packages/agent/src/agent-loop.ts:461-500 | preparing one more call changes the tally of running and finished calls as the protocol requires |
| BatchTally.MoveTally | packages/agent/src/agent-loop.ts:484-504 | so does every move of a running call |
| BatchTally.CompleteTally | packages/agent/src/agent-loop.ts:502-515 | when every call is done nothing runs, and the finished results are those collected in source order |
| Protocol.PrefixesAccepted | packages/agent/src/agent-loop.ts:155-269 | every prefix of an accepted log is accepted, so what holds of accepted logs holds at every moment |
| Protocol.PollAllowed | packages/agent/src/agent.ts:458-465 | a queue may be polled exactly where the loop polls it, and a first poll that is to be skipped takes nothing |
| ProtocolFacts.AgentAgrees | packages/agent/src/agent.ts:527-574 | at every moment the reduced transcript, streaming message and pending tool calls are the ones the log implies; with distinct ids the pending set is started minus ended, and it is empty outside a tool batch |
| ProtocolFacts.DisplayAgrees | packages/agent/src/agent.ts:470-574 | streaming message and error message, read off the log: the last message shown and not ended, and the last non-empty error of a turn since the run began |
| ProtocolFacts.RunIsItsPayloads | packages/agent/src/agent-loop.ts:103-118 | the part of the transcript since the run began is exactly its message_end payloads |
| ProtocolFacts.RecordsAgree | packages/agent/src/agent-loop.ts:203-224 | at every model call, after every turn and at agent_end: loop context, `newMessages` and the agent's transcript agree, `newMessages` is the end of the transcript, and after a turn no tool call is pending; the agent_end of a failed run carries the last of the run's messages, the failure |
| ProtocolFacts.RunsAreFramed | packages/agent/src/agent-loop.ts:95-269 | event grammar, run by run: agent_start, one or more bracketed turns holding all other events, one final agent_end; exactly unless the loop threw outside a turn of this run |
| ProtocolFacts.BracketsUnlessTorn | packages/agent/src/agent-loop.ts:313-367 | run by run: message brackets never nest and never cross a turn, exactly unless the loop threw, or the stream started again, in the middle of a reply of this run |
| ProtocolFacts.ToolBrackets | packages/agent/src/agent-loop.ts:628-714 | for every id, starts are ends plus calls still running, so outside a batch every start has one end |
| ProtocolFacts.TurnResultsPair | packages/agent/src/agent-loop.ts:203-216 | the results of a turn answer by id and name, in source order, the first calls of its reply; at least one if there are calls, and all unless the signal was seen aborted |
| ProtocolFacts.TakenIsDelivered | packages/agent/src/agent-loop.ts:167-190 | what was taken from a queue is delivered in order, or held for the next turn |
| ProtocolFacts.QueueConservation | packages/agent/src/agent.ts:123-157 | between runs, what was ever enqueued is in the transcript, once and in order, followed by what still waits |
| ProtocolFacts.OneSteerPerReply | packages/agent/src/agent.ts:433-465 | with one-at-a-time steering no reply is preceded by more than one steering message since the reply before, across all runs |
| ProtocolFacts.FollowUpOnlyWhenIdle | packages/agent/src/agent-loop.ts:253-262 | the loop drains follow-ups only right after an empty steering poll, and when no tool call since the last reply asked to go on |
| ProtocolFacts.TurnBound | packages/agent/src/agent-loop.ts:170-266 | the turns of a run are at most 1 plus its turns whose batch goes on plus the messages it drained |
| ProtocolFacts.CountersAgree | packages/agent/src/agent-loop.ts:170-266 | turns and polls of the current run, counted in the log |
| ProtocolFacts.ExplainsStep | packages/agent/src/agent.ts:527-574 | one accepted action keeps log, reduced state and both queues in agreement |
| AgentHost.PendingMessageQueue.constructor | packages/agent/src/agent.ts:123-129 | a new queue is empty and keeps its mode |
| AgentHost.PendingMessageQueue.Enqueue | packages/agent/src/agent.ts:131-133 | the message joins at the end |
| AgentHost.PendingMessageQueue.Drain | packages/agent/src/agent.ts:139-152 | what is drained and what remains make up the old contents; all of it, or exactly one message unless there was none |
| AgentHost.Agent.constructor | packages/agent/src/agent.ts:210-232 | a new agent has its initial transcript, an empty log and nothing running |
| AgentHost.Agent.ProcessEvents | packages/agent/src/agent.ts:527-574 | the reduction of an allowed event keeps the agent explained by its log |
| AgentHost.Agent.Steer | packages/agent/src/agent.ts:274-276 | the message is queued and logged, and nothing else changes |
| AgentHost.Agent.FollowUpWith | packages/agent/src/agent.ts:279-281 | the same for the follow-up queue |
| AgentHost.Agent.GetSteeringMessages | packages/agent/src/agent.ts:458-464 | drains the steering queue by its mode where a poll is due, or skips the first poll and takes nothing |
| AgentHost.Agent.GetFollowUpMessages | packages/agent/src/agent.ts:465-465 | drains the follow-up queue after an empty steering poll |
| AgentHost.Agent.BeginRun | packages/agent/src/agent.ts:470-484 | a run begins with these prompts, and the transcript is untouched |
| AgentHost.Agent.BeginFromSteering | packages/agent/src/agent.ts:358-363 | a run begins with what the steering queue gives, and only if it gives something |
| AgentHost.Agent.BeginFromFollowUps | packages/agent/src/agent.ts:364-369 | the same for the follow-up queue |
| AgentHost.Agent.FinishRun | packages/agent/src/agent.ts:512-518 | nothing streams and no tool call is pending once a run has finished, however it ended; the transcript stays |
| AgentTypes.CallsInSourceOrder | packages/agent/src/agent-loop.ts:203-204 | every block of a reply is looked at, and its tool calls are taken in their order |
| AgentTurn.OnePlaceIffOneStart | packages/agent/src/agent-loop.ts:313-367 | a reply takes exactly one place in the loop context if and only if its stream starts at most once |
| AgentTurn.OnStreamEvent | packages/agent/src/agent-loop.ts:313-340 | a start adds a place, an update overwrites the last one, updates before a start are ignored, and a second start tears the message brackets |
| AgentTurn.ReadEvents | packages/agent/src/agent-loop.ts:313-340 | any sequence of stream events leaves the slots in the loop context that its starts and updates call for, and logs exactly one start or update event for each that is shown, with its payload |
| AgentTurn.OpenStream | packages/agent/src/agent-loop.ts:275-340 | the request is logged with the transcript the model is shown, then exactly the message events of the stream up to its end or its throw |
| AgentTurn.PlaceReply | packages/agent/src/agent-loop.ts:342-367 | the final message replaces the last partial one or takes a place of its own, and the log gains its end, after a start if the stream had none |
| AgentTurn.StreamAssistantResponse | packages/agent/src/agent-loop.ts:275-368 | throws exactly when the model call does, before or after a start as the script says; otherwise the reply is delivered once, with or without a start event, and the loop context stays the agent's transcript if and only if the stream started at most once; the log gains exactly the request and the message events the stream calls for |
| AgentTurn.ChooseMode | packages/agent/src/agent-loop.ts:381-388 | in turn exactly when the agent is set to it or some call names a tool, the first of its name, that asks for it |
| AgentTurn.ExecuteToolCalls | packages/agent/src/agent-loop.ts:373-388 | runs one call after the other exactly when the agent is set to or a call asks for it, and concurrently otherwise; in either mode: the outcome of each handled call in source order, as its behaviour says, all of them unless aborted, and the flag that goes with them |
| AgentTurn.RunTools | packages/agent/src/agent-loop.ts:203-214 | exactly the results of the handled calls enter both of the loop's records and the transcript, which stay in agreement |
| AgentTurn.FinishTurn | packages/agent/src/agent-loop.ts:203-216 | from a reply to its turn_end; the transcript gains exactly the tool results, and the turn is continued exactly when it had calls and they do not terminate |
| AgentTurn.TurnDeliveriesTell | packages/agent/src/agent-loop.ts:192-216 | what a turn adds to the transcript, from its script alone: nothing if the model call throws, the reply alone if it says that it failed, else the reply and one result for each handled call with what its behaviour says |
| AgentTurn.GoesOnAsAsked | packages/agent/src/agent-loop.ts:203-214 | a reply asks for another turn exactly when it has calls and the handled ones do not all ask to stop |
| AgentTurn.ReachHooks | packages/agent/src/agent-loop.ts:203-231 | the same up to the hooks, which are shown the records in agreement |
| AgentTurn.RunTurn | packages/agent/src/agent-loop.ts:192-248 | what the script of a turn says decides how it ends and where: going on, stopped, failed reply, throwing hook after turn_end, throw in the middle of a reply or before it; and the transcript gains exactly its reply and tool results |
| AgentTurn.TurnEndedTells | packages/agent/src/agent-loop.ts:192-248 | how a turn ends, from its script alone: thrown with its message, failed exactly for a stop reason error or aborted, stopped by its hook, or going on exactly as its tool calls ask |
| AgentTurn.CompleteTurn | packages/agent/src/agent-loop.ts:203-250 | the tools of a reply and the hooks after them, with the records in agreement |
| AgentLoop.InjectPending | packages/agent/src/agent-loop.ts:180-190 | the transcript gains exactly the held messages, in order, and so do both records |
| AgentLoop.InnerPass | packages/agent/src/agent-loop.ts:174-250 | one pass of the inner loop leads to the next decision with the records in agreement, every message accounted for and the loop where the forecast says, exactly when its turn goes on; else the run ends as that turn says |
| AgentLoop.InnerLoop | packages/agent/src/agent-loop.ts:174-250 | the inner loop terminates: each pass uses up a turn before the calm, or a message, or the last batch that went on |
| AgentLoop.FollowUpsOrEnd | packages/agent/src/agent-loop.ts:253-268 | follow-up messages start another pass; without any the run ends with agent_end |
| AgentLoop.Conclude | packages/agent/src/agent-loop.ts:196-249 | a turn that does not go on ends the loop: by throwing what the script throws, or with agent_end |
| AgentLoop.RunLoop | packages/agent/src/agent-loop.ts:155-269 | if only finitely many batches go on and finitely many messages arrive, the nested loops terminate; nothing taken from a queue is left undelivered, the run makes exactly the turns that script, queues and modes foretell, the last of them decides whether and where it threw, and the transcript gains exactly the replies and results of its turns besides what came from the queues |
| RunForecast.NextForeseen | packages/agent/src/agent-loop.ts:174-250 | from a decision for a turn that goes on, the forecast makes the step the inner loop makes: arrivals, then a poll of the steering queue by its mode |
| RunForecast.FollowUpsForeseen | packages/agent/src/agent-loop.ts:253-266 | after the inner loop the follow-up queue decides whether there is another turn |
| RunForecast.OneLastTurn | packages/agent/src/agent-loop.ts:155-269 | script, queue lengths and queue modes determine one last turn |
| AgentSession.RunAgentLoop | packages/agent/src/agent-loop.ts:95-118 | the prompts enter the transcript first, in order, and the run ends as RunLoop does |
| AgentSession.RunAgentLoopContinue | packages/agent/src/agent-loop.ts:120-143 | throws on an empty transcript or one that ends with an assistant message, otherwise is a run like any other |
| AgentSession.HandleRunFailure | packages/agent/src/agent.ts:494-510 | a failed run emits and adds exactly one assistant message, of empty text, with stop reason aborted or error and the thrown text, and closes normally |
| AgentSession.EndRun | packages/agent/src/agent.ts:484-518 | however the loop ended, the agent is at rest afterwards, with the failure message in the transcript if it threw |
| AgentSession.ComeToRest | packages/agent/src/agent.ts:484-518 | a run from its loop to rest: its log grew by a whole run, which shows what the last turn that was to be foreseen says |
| AgentSession.ScriptForetells | packages/agent/src/agent-loop.ts:170-266 | the last turn of a run is the one that script, queue lengths and modes foretell, if and only if; and that turn decides, in both directions, whether the run is well framed and whether its brackets are right; so a run none of whose hooks throws is well framed, and one none of whose started streams breaks has right brackets |
| AgentSession.HookThrowUnframes | packages/agent/src/agent-loop.ts:218-231 | a prompt whose hook throws after the first turn leaves a run that is not well framed |
| AgentSession.SteeredThrowUnframes | packages/agent/src/agent-loop.ts:218-250 | a steering message that arrives during the first turn leads to a second one, whose throwing hook leaves a run that is not well framed |
| AgentSession.BrokenReplyTears | packages/agent/src/agent-loop.ts:313-340 | a prompt whose stream breaks after its start leaves message brackets that nest |
| AgentSession.Prompt | packages/agent/src/agent.ts:337-345 | refused without effect, with its text, exactly while a run is active; otherwise one whole run: the log grows, the prompts enter first, nothing is removed, what arrived meanwhile is enqueued in order, and the transcript gains exactly the turns' replies and results |
| AgentSession.Continue | packages/agent/src/agent.ts:348-375 | refused without effect, each time with its own text, exactly when busy, empty, or at an assistant message with both queues empty; otherwise one whole run, which begins with the steering messages if there are any, else with the follow-ups |
| AgentSession.RunsAreSound | packages/agent/src/agent-loop.ts:95-269 | every run of an accepted log, at the moment it finished, has its grammar, brackets and turn bound |
| AgentSession.Perform | packages/agent/src/agent.ts:274-375 | each operation does to the log what its report says |
| AgentSession.RestIsSound | packages/agent/src/agent.ts:123-574 | an agent at rest has its transcript, conservation of both queues, pacing, tool brackets, and grammar, message brackets and turn bound of every run |
| AgentSession.Session | packages/agent/src/agent.ts:171-574 | any sequence of steer, followUp, prompt and continue leaves a log made of their reports, one after the other: what was ever enqueued are exactly the operations' messages and the arrivals during their runs, in order; and the agent is sound |
| Budget.NormalizeProvider | apps/server/src/budget-policy.ts:247-250 | a normalised provider name is not empty and has no surrounding white space |
| Budget.NormalizedName | apps/server/src/budget-policy.ts:247-250 | normalising takes away the white space around a name and nothing else; a blank name is none |
| Budget.NormalizeUsd | apps/server/src/budget-policy.ts:252-257 | a negative amount is no amount |
| Budget.OwnRuleHidesGeneral | apps/server/src/budget-policy.ts:153-162 | a provider's own fields hide the general ones one by one; a negative own limit means no limit |
| Budget.RuleInForce | apps/server/src/budget-policy.ts:153-162 | mode and limits in force, field by field: the provider's own where it says something, else the general one; off when both are silent, and no limit for a negative amount |
| Budget.DaysAreACalendar | apps/server/src/budget-policy.ts:239-241 | UTC days partition time into periods |
| Budget.QuerySeesSpending | apps/server/src/budget-policy.ts:220-237 | the ledger query from the start of the period to now finds all the provider has spent in that period, and no more when it asks for one provider |
| Budget.SumGrows | apps/server/src/budget-policy.ts:220-237 | a record adds its cost to the sum exactly when its time lies in the queried span, both ends included, and it is of the provider asked for |
| Budget.CollectViolations | apps/server/src/budget-policy.ts:164-202 | one violation per exceeded limit, in the order request, day, month, with its figures, for each of the three windows |
| Budget.EvaluateBudget | apps/server/src/budget-policy.ts:68-104 | from the settings and the ledger alone: there is a violation of a scope exactly when a limit in force for it would be exceeded, each names that limit and by how much, and it blocks exactly when blocking is the mode in force and some limit would be exceeded |
| Budget.AdmitsUnlessOver | apps/server/src/budget-policy.ts:68-104 | an attempt is admitted exactly when no limit in force would be exceeded by its estimate on top of what the ledger shows |
| Budget.ViolationsOfRuleTell | apps/server/src/budget-policy.ts:164-202 | the violations of the rule in force name the limits that would be exceeded, and there is none exactly when none would be |
| Budget.FreeRecordsAreSafe | apps/server/src/budget-policy.ts:220-237 | a record without cost breaks no limit |
| Budget.AdmittedRecordIsSafe | apps/server/src/chat-completions-api.ts:933-948 | an admitted attempt that costs at most its estimate and is stamped in the period it was checked in keeps every provider's daily and monthly limit |
| Budget.GateProtectsIff | apps/server/src/chat-completions-api.ts:494-548 | whatever the ledger, the gate protects a limit if and only if stamp and budget reading lie in one period and the provider's name is not padded |
| Budget.OverspendUnseen | apps/server/src/budget-policy.ts:220-250 | otherwise there is a ledger and an admitted attempt that overspends |
| Requests.OverspendServed | apps/server/src/chat-completions-api.ts:494-548 | through the gate of a whole request: for every stamp in another day than the budget reading and every padded provider name, a spent limit is exceeded by an admitted attempt |
| Routing.Gate | apps/server/src/chat-completions-api.ts:933-948 | an attempt is blocked exactly when there are settings, blocking is the mode in force for its provider, and its estimate would exceed a limit in force, both read off the settings |
| Routing.GeneralLimitStops | apps/server/src/chat-completions-api.ts:933-948 | in general block mode whoever has no rule of its own is stopped when what it spent and its estimate exceed the general daily or monthly limit, or its estimate the request limit |
| Routing.OnlyBlockingStops | apps/server/src/chat-completions-api.ts:933-948 | in any other mode in force nothing is stopped |
| Routing.Relay | apps/server/src/chat-completions-api.ts:576-635 | up to the terminal event, what was shown upstream is sent in order after one role frame, and nothing is sent when nothing was shown |
| Routing.RelayOne | apps/server/src/chat-completions-api.ts:590-635 | one event of the stream sends what it shows, after the role frame |
| Routing.BooksTell | apps/server/src/chat-completions-api.ts:637-883 | what an admitted attempt books, from its events alone and for any events before its last: status and the cost that event reported, none without one, and a second error record exactly when a failure left no trace |
| Routing.FallsBackTells | apps/server/src/chat-completions-api.ts:684-883 | it leads on exactly when it has shown nothing, is not the last, did not complete, and its failure, not aborted, is one the rules take on; or it left no trace and they take on a stream that just ends |
| Routing.RunCompleted | apps/server/src/chat-completions-api.ts:637-683 | a completed stream: one success record with its cost, and the finish frame carries its reason |
| Routing.RunBroken | apps/server/src/chat-completions-api.ts:766-883 | a stream that throws or ends without a terminal event: one error record without cost, and what is sent says why |
| Routing.CloseStream | apps/server/src/chat-completions-api.ts:637-753 | the stream is role, content, one finish or error frame, end marker, all of one attempt, and then ended |
| Routing.FailStream | apps/server/src/chat-completions-api.ts:766-883 | one error record; another route only if nothing was sent and the rules say so; otherwise an error frame, or one 502 with the whole list of failed attempts |
| Routing.RunErrorEvent | apps/server/src/chat-completions-api.ts:684-766 | an error event books one record, or two when its empty message is mistaken for no failure, never leads on after something was sent, and adds exactly its entries to the list of failed attempts |
| Routing.RunAdmitted | apps/server/src/chat-completions-api.ts:549-883 | an admitted attempt books exactly the records its events call for, leads on exactly when the rules say so and nothing was shown, and leaves the response untouched for the next route or complete, closed by the finish reason, the error message or the 502 message its last event calls for; its entries in the list of failed attempts are exactly those of its failure |
| Routing.RunStreamAttempt | apps/server/src/chat-completions-api.ts:494-883 | the same with the gate: a blocked attempt books one skipped record and sends nothing, or 402 when it is the last, and only then |
| Requests.ExpectedFacts | apps/server/src/chat-completions-api.ts:494-883 | the records of one attempt of either kind: one, or two when double-booked; only the first can carry a cost; skipped exactly when blocked; only errors and skips lead on |
| Requests.PlainTells | apps/server/src/chat-completions-api.ts:274-454 | an admitted plain attempt, from its outcome alone: its one record has the status and exactly the cost of the reply, none if it threw; and it leads on exactly when it failed without being aborted, is not the last, and the rules take its message on |
| Requests.BlockedTells | apps/server/src/chat-completions-api.ts:281-324 | a stopped attempt of either kind: one skipped record without cost, one entry, and it leads on exactly when it is not the last |
| Requests.SwallowedAbort | apps/server/src/chat-completions-api.ts:735-766 | a request whose first attempt is aborted with an empty message: it is booked twice, as aborted and as error, and the second provider answers |
| Requests.LedgerShapeIff | apps/server/src/chat-completions-api.ts:735-766 | one record per attempt, indices without gaps, only the last one final, success exactly when the request succeeded: if and only if no attempt passed the gate and failed with an empty message, unseen and without fallback |
| Requests.AttemptKeepsLimits | apps/server/src/chat-completions-api.ts:505-548 | one attempt of either kind keeps every limit |
| Requests.ChainKeeps | apps/server/src/chat-completions-api.ts:494-883 | what one attempt keeps, all attempts of an attempt loop keep, however many there are |
| Requests.LedgerAt | apps/server/src/chat-completions-api.ts:494-883 | each attempt books what it should on top of the ledger its gate read, and all but the last led on |
| Requests.RequestKeepsLimits | apps/server/src/chat-completions-api.ts:494-897 | all attempts of a request together keep every limit, because each reads the ledger again |
| Requests.NextStreamAttempt | apps/server/src/chat-completions-api.ts:494-883 | one more attempt extends the ledger and leaves the response untouched or answered |
| Requests.HandleStreaming | apps/server/src/chat-completions-api.ts:478-897 | the ledger gains exactly the records its attempts book, each on top of the ledger its gate read; for a non-empty plan exactly one response, 402 exactly when the last attempt was skipped, 502 or one well-formed stream carrying exactly what the last attempt showed and closed as its last event says; a failure document lists exactly the failures of the attempts, in order and one for each record; the document after the loop is unreachable; success exactly when the last record says so |
| Requests.NotedNext | apps/server/src/chat-completions-api.ts:494-883 | the list of failed attempts is made attempt by attempt of what each of them adds to it |
| Requests.RunPlainAttempt | apps/server/src/chat-completions-api.ts:274-454 | a plain attempt books exactly one record, with the status and the cost its outcome calls for, and leads on exactly when the rules say so |
| Requests.HandlePlain | apps/server/src/chat-completions-api.ts:272-468 | the ledger gains exactly the records its attempts book; exactly one response, 200, 402 or 502, that agrees with the ledger and, when it failed, lists exactly the failures of the attempts in order |
| Requests.PlainLedgerShape | apps/server/src/chat-completions-api.ts:274-454 | the ledger of a plain request has the promised shape without any condition |
| Requests.OneRequestLater | apps/server/src/chat-completions-api.ts:281-324 | one request of either kind keeps every limit and the order of the clock |
| Requests.ServeOne | apps/server/src/chat-completions-api.ts:173-468 | one request of either kind, with its response and its records |
| Requests.ServeAll | apps/server/src/chat-completions-api.ts:173-468 | spending safety: over any sequence of requests and fallbacks the ledger gains exactly the records of the requests, served one after the other; after each of them no blocking daily or monthly limit is exceeded; and each has a response of its own that agrees with its records, its failures and its last event |
| AttemptTrace.UsageTrace.constructor | apps/server/src/chat-completions-api.ts:984-1008 | a trace begins with the start of the attempt |
| AttemptTrace.UsageTrace.Append | apps/server/src/chat-completions-api.ts:1010-1051 | what is kept is the first 200 events offered and one marker if there were more |
| ProxyStream.BlocksAreIndependent | packages/agent/src/proxy.ts:238-347 | each rebuilt block is what its own events make of it |
| ProxyStream.RejectedIffSomeBlockIs | packages/agent/src/proxy.ts:238-347 | a stream is rejected exactly when one block's events are rejected on their own |
| ProxyStream.InterleavingDoesNotMatter | packages/agent/src/proxy.ts:238-347 | reordering events of different blocks changes neither acceptance nor content |
| ProxyStream.SinceLastStart | packages/agent/src/proxy.ts:248-335 | from any block, a start and what follows it make the concatenation of the deltas since, with the last signature; tool arguments are the parse of that, or empty without deltas |
| ProxyStream.BlockHasStart | packages/agent/src/proxy.ts:238-347 | there is a block only where its events have a last start |
| ProxyStream.RebuiltFromLastStart | packages/agent/src/proxy.ts:238-347 | a whole block, whatever came before, is the concatenation of its deltas since its last start |
| ProxyStream.AfterItsEnd | packages/agent/src/proxy.ts:308-335 | deltas after the end of a tool call: the text collected anew begins with "undefined", and the arguments are the parse of that |
| ProxyStream.RejectedAtFirstMisfit | packages/agent/src/proxy.ts:248-335 | a stream is accepted exactly when every delta and end meets a block whose last start made it of that kind; otherwise the first that does not says why |
| ProxyStream.MessageEndsAsTold | packages/agent/src/proxy.ts:351-360 | stop reason and usage are those of the last done or error event, the error message that of the last error event; without any "stop", zero and none |
| ProxyStream.ToldStep | packages/agent/src/proxy.ts:238-367 | one accepted event pushes itself, with the block its events so far make; only the end of a tool call whose block is not one is passed over |
| ProxyReader.PartialMessage.ProcessProxyEvent | packages/agent/src/proxy.ts:238-367 | the update in place is the specified one, with the pushed event; a rejected event changes nothing |
| ProxyReader.HandleLine | packages/agent/src/proxy.ts:195-206 | only data lines with content are decoded |
| ProxyReader.CarriedIs | packages/agent/src/proxy.ts:195-199 | a line carries what the rest after "data: " decodes to; blank data lines and all others carry nothing |
| ProxyReader.HandleLines | packages/agent/src/proxy.ts:195-206 | lines are handled in order up to the first error |
| ProxyReader.ChunkStep | packages/agent/src/proxy.ts:191-193 | what a chunk completes depends only on the carried rest |
| ProxyReader.ReadChunks | packages/agent/src/proxy.ts:183-212 | the read loop throws the first bad line of what was read, else the abort, and otherwise has handled all complete lines |
| ProxyReader.ReadStream | packages/agent/src/proxy.ts:179-225 | chunking invariance: message, pushes and error depend on the complete lines of the whole text alone, and the buffer is the text after the last newline; an abort cuts the text where it is noticed |
| ProxyReader.LinesRebuild | packages/agent/src/proxy.ts:195-206 | the message read from lines is the one their events rebuild |
| ProxyReader.LinesTell | packages/agent/src/proxy.ts:183-213 | the events on the lines before the first one that does not decode or misfits, or on all of them, decide what was pushed, the content, the stop reason, usage and error message; and that line says what was thrown |
| ProxyReader.OneMoreLineTells | packages/agent/src/proxy.ts:195-206 | so it goes line by line |
| ProxyReader.BlocksFromText | packages/agent/src/proxy.ts:179-347 | every block of a message read from any chunks is made of its own events in the text |
| ProxyReader.BlockIsItsDeltas | packages/agent/src/proxy.ts:179-347 | end to end: every block of a message read from any chunks has a last start among its events in the text, and is the concatenation of its deltas since, tool arguments the parse of that |
| Hashline.DigitsReadBack | packages/hashline/src/format.ts:25-27 | the printed number reads back |
| Hashline.NumberedLine | packages/hashline/src/format.ts:25-27 | a line numbered from zero up strips back to itself; with a negative number it is not recognised |
| Hashline.StripNumberedText | packages/hashline/src/format.ts:29-46 | stripping numbered lines returns the text if and only if numbering starts at a natural number, for every text |
| Hashline.StripWithHeader | packages/hashline/src/format.ts:21-46 | the same with a header line on top, for every path and hash without a newline |
| Hashline.NumberedIs | packages/hashline/src/format.ts:39-45 | a line is recognised exactly when it reads as digits, a colon and the rest, and stripping gives that rest |
| Hashline.HeadersDropped | packages/hashline/src/format.ts:31-36 | header lines are left out wherever they stand, and no others |
| Hashline.StripAnyText | packages/hashline/src/format.ts:29-46 | any text: it is stripped exactly when some line is neither header nor empty and all such lines are numbered; then headers go and numbers come off, empty lines stay; otherwise it is left as it is |
| Hashline.HeaderDetermines | packages/hashline/src/format.ts:21-23 | path and hash can be read off a header when the hash has no separator in it |
| Hashline.RemovePaddingByLine | packages/hashline/src/format.ts:8-10 | removing trailing padding works line by line |
| Hashline.NormalizeIdempotent | packages/hashline/src/format.ts:8-19 | the text that is hashed is a normal form |
| Hashline.LineEnds | packages/hashline/src/format.ts:12-14 | CRLF and a lone CR become one newline each, wherever they stand, and a text without CR stays |
| Hashline.SnapshotCuts | packages/hashline/src/format.ts:12-14 | the lines of the result are those of the text cut at LF, CRLF and CR |
| Hashline.NormalFormByLine | packages/hashline/src/format.ts:8-19 | the normal form is those lines, each without its padding |
| Hashline.SameNormalFormIff | packages/hashline/src/format.ts:8-19 | two texts normalise alike if and only if, cut at LF, CRLF and CR, they have as many lines, equal in pairs up to trailing spaces and tabs |
| Text.SplitJoin | packages/hashline/src/format.ts:29-34 | joined lines split into themselves |
| Text.JoinSplit | packages/hashline/src/format.ts:29-34 | a split text joins to itself |
| Text.SplitAppend | packages/agent/src/proxy.ts:191-193 | how the lines of two pieces of text fit together |
| ModelRefresh.SingleFlight | packages/ai/src/models.ts:323-364 | over every schedule at most one fetch is outstanding, it is the one in the slot, and the list is the initial one or the latest success |
| ModelRefresh.CallJoinsOrStarts | packages/ai/src/models.ts:349-359 | a call joins the outstanding fetch, or starts a new one when there is none |
| ModelRefresh.SettlingResolves | packages/ai/src/models.ts:349-359 | after any schedule with a fetch outstanding, its settlement reaches every call that joined it, sets the list if it brought one and leaves it otherwise, and empties the slot, so the next call starts a new fetch |
| ModelRefresh.PromisesKept | packages/ai/src/models.ts:349-359 | a caller keeps the promise it was given, and a settled promise does not change |
| ModelRefresh.StuckIffThrewOnTheSpot | packages/ai/src/models.ts:349-359 | the slot gets stuck if and only if the fetch function throws before it returns a promise |
| ModelRefresh.StuckForGood | packages/ai/src/models.ts:349-359 | then every later call gets the same rejected promise and the list never changes |
| ModelRefresh.ModelSource.RefreshModels | packages/ai/src/models.ts:349-359 | the closure's call joins the promise in the slot or starts a fetch of its own, and returns the promise of that call |
| ModelRefresh.ModelSource.OnSettled | packages/ai/src/models.ts:349-359 | the settlement resolves the promise in the slot, sets the list if it was fulfilled, and empties the slot |

## Left out

- Listeners and event sinks that throw, and `subscribe`: events only reach the agent's own reduction.
- `prepareNextTurn` replacing the context, `transformContext` changing messages in place, `reset()` and clearing queues, changing a queue's mode: they break transcript agreement or conservation on purpose.
- `agentLoop`, `agentLoopContinue` and `EventStream`: wrappers that forward the same events.
- Runs that never end, because tool batches go on or messages arrive without end.
- Timestamps, usage and provider fields of messages; images and structured content are strings.
- Aliasing of the `partial` message object between stream, context and events: messages are values.
- Sampling of the abort signal inside tools and streams: what a reading gives is part of the scripts.
- `beforeToolCall` and `afterToolCall` see no context here: what they answer is any function of the call's position.
- ProxyReader.ReadStream: does not model the HTTP exchange and UTF-8 decoding across chunks.
- Budget.DaysAreACalendar: months are any partition of time into periods, not computed from the civil calendar.
- Budget.EvaluateBudget: counts money in integers of 1e-8 USD, so rounding of sums, percentages and formatted messages are not modelled.
- Cost and token estimates (`estimateModelRequestCostUsd`, `estimateOpenAiInputTokens`): any estimate is allowed.
- Provider-error rules and cooldowns (`checkFallbackError`): an arbitrary function of the message.
- Socket writes, usage stores and connection-state updates that throw, and requests without a usage store.
- The order in which the ledger query returns records: only their sum is used.
- Concurrent requests over one ledger: attempts are checked and booked one at a time.
- AttemptTrace.UsageTrace.Append: keeps the names of events, not their metadata and times, and is not attached to usage records.
- Request validation, conversion of messages and tools, JSON and HTTP plumbing, CORS, authentication.
- Hashline.NumberedLine: numbers print in decimal at any size, while JavaScript switches to exponents from 1e21 on.
- SHA-256 and the rest of the hashline package: patches and snapshots.
- The rest of `packages/ai/src/models.ts` and all other packages: network clients, tables and user interface.
