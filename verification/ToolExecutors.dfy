/**
 * The two executors of a reply's tool calls, against the agent they emit to. Both leave behind the outcome of each
 * handled call in source order; the parallel one does so for every choice of its scheduler.
 */
module ToolExecutors {
  import opened Common
  import opened AgentTypes
  import opened ToolOutcome
  import opened ToolSchedule
  import opened Protocol
  import opened ProtocolFacts
  import opened AgentHost
  import opened BatchTally

  ghost predicate ToolPhase(agent: Agent, reply: AssistantMessage, t: Tally)
    reads agent, agent.steeringQueue, agent.followUpQueue
  {
    agent.Valid() && agent.activeRun && agent.mon.phase == Responded(reply, t)
  }

  lemma ToolStartAllowed(m: Monitor, reply: AssistantMessage, t: Tally, call: ToolCall)
    requires m.phase == Responded(reply, t) && !reply.Failed() && t.open.None? && !t.aborted
    requires t.started < |ToolCalls(reply.content)| && call == ToolCalls(reply.content)[t.started]
    ensures Advance(m, Emit(StartEvent(call)))
         == Some(m.(phase := Responded(reply, t.(started := t.started + 1, running := t.running + multiset{call.id}))))
  {
    assert call == ToolCall(call.id, call.name, call.arguments);
  }

  method EmitToolStart(agent: Agent, ghost reply: AssistantMessage, ghost t: Tally, call: ToolCall)
    requires ToolPhase(agent, reply, t) && !reply.Failed() && t.open.None? && !t.aborted
    requires t.started < |ToolCalls(reply.content)| && call == ToolCalls(reply.content)[t.started]
    modifies agent
    ensures ToolPhase(agent, reply, t.(started := t.started + 1, running := t.running + multiset{call.id}))
    ensures agent.mon == old(agent.mon).(phase := agent.mon.phase)
    ensures ToolTraffic(agent.log) == ToolTraffic(old(agent.log)) + [StartEvent(call)]
    ensures Silent(old(agent.log), agent.log)
  {
    ToolStartAllowed(agent.mon, reply, t, call);
    agent.ProcessEvents(StartEvent(call));
    ToolTrafficAppend(old(agent.log), Emit(StartEvent(call)));
  }

  method EmitToolUpdate(agent: Agent, ghost reply: AssistantMessage, ghost t: Tally, call: ToolCall, partial: string)
    requires ToolPhase(agent, reply, t) && t.open.None? && call.id in t.running
    modifies agent
    ensures ToolPhase(agent, reply, t) && agent.mon == old(agent.mon)
    ensures ToolTraffic(agent.log) == ToolTraffic(old(agent.log)) + [UpdateEvent(call, partial)]
    ensures Silent(old(agent.log), agent.log)
  {
    agent.ProcessEvents(UpdateEvent(call, partial));
    ToolTrafficAppend(old(agent.log), Emit(UpdateEvent(call, partial)));
  }

  method EmitToolEnd(agent: Agent, ghost reply: AssistantMessage, ghost t: Tally, f: Finalized,
                     ghost running: multiset<string>)
    requires ToolPhase(agent, reply, t) && t.open.None? && t.running == running + multiset{f.call.id}
    modifies agent
    ensures ToolPhase(agent, reply, t.(running := running, finished := t.finished + multiset{ResultMessage(f)},
                                       continuing := t.continuing || !WantsTermination(f)))
    ensures agent.mon == old(agent.mon).(phase := agent.mon.phase)
    ensures ToolTraffic(agent.log) == ToolTraffic(old(agent.log)) + [EndEvent(f)]
    ensures Silent(old(agent.log), agent.log)
  {
    TakeBack(t.running, running, f.call.id);
    agent.ProcessEvents(EndEvent(f));
    ToolTrafficAppend(old(agent.log), Emit(EndEvent(f)));
  }

  /** The two events of a tool-result message, which must be the next one due. */
  method EmitToolResult(agent: Agent, ghost reply: AssistantMessage, ghost t: Tally, result: ToolResultMessage,
                        ghost finished: multiset<ToolResultMessage>)
    requires ToolPhase(agent, reply, t) && t.open.None? && t.running == multiset{}
    requires t.finished == finished + multiset{result}
    requires |t.results| < t.started <= |ToolCalls(reply.content)|
    requires Answers(result, ToolCalls(reply.content)[|t.results|])
    modifies agent
    ensures ToolPhase(agent, reply, t.(finished := finished, results := t.results + [result]))
    ensures agent.mon == Deliver(old(agent.mon), ToolRun, ToolResult(result), agent.mon.phase)
    ensures ToolTraffic(agent.log) == ToolTraffic(old(agent.log))
    ensures Silent(old(agent.log), agent.log)
  {
    TakeBack(t.finished, finished, result);
    agent.ProcessEvents(MessageStart(ToolResult(result)));
    ToolTrafficAppend(old(agent.log), Emit(MessageStart(ToolResult(result))));
    ghost var log := agent.log;
    agent.ProcessEvents(MessageEnd(ToolResult(result)));
    ToolTrafficAppend(log, Emit(MessageEnd(ToolResult(result))));
  }

  lemma OneMoreUpdate(call: ToolCall, updates: seq<string>, k: nat)
    requires k < |updates|
    ensures UpdateEvents(call, updates[..k + 1]) == UpdateEvents(call, updates[..k]) + [UpdateEvent(call, updates[k])]
  {
  }

  method EmitUpdates(agent: Agent, ghost reply: AssistantMessage, ghost t: Tally, call: ToolCall, updates: seq<string>)
    requires ToolPhase(agent, reply, t) && t.open.None? && call.id in t.running
    modifies agent
    ensures ToolPhase(agent, reply, t) && agent.mon == old(agent.mon)
    ensures ToolTraffic(agent.log) == ToolTraffic(old(agent.log)) + UpdateEvents(call, updates)
    ensures Silent(old(agent.log), agent.log)
  {
    for k := 0 to |updates|
      invariant ToolPhase(agent, reply, t) && agent.mon == old(agent.mon)
      invariant ToolTraffic(agent.log) == ToolTraffic(old(agent.log)) + UpdateEvents(call, updates[..k])
      invariant Silent(old(agent.log), agent.log)
    {
      EmitToolUpdate(agent, reply, t, call, updates[k]);
      OneMoreUpdate(call, updates, k);
    }
    assert updates[..|updates|] == updates;
  }

  function Reports(tools: seq<Tool>, call: ToolCall, b: Behaviour): seq<AgentEvent> {
    if Prepare(tools, call, b).Prepared? then UpdateEvents(call, b.updates) else []
  }

  lemma OwnEventsParts(before: seq<AgentEvent>, tools: seq<Tool>, call: ToolCall, b: Behaviour, f: Finalized)
    ensures before + [StartEvent(call)] + Reports(tools, call, b) + [EndEvent(f)]
         == before + OwnEvents(tools, call, b, Done(f))
  {
  }

  /** The updates of a started call, if it runs at all, and its outcome. */
  method RunStarted(agent: Agent, ghost reply: AssistantMessage, ghost t: Tally, call: ToolCall, b: Behaviour)
    returns (f: Finalized)
    requires ToolPhase(agent, reply, t) && t.open.None? && call.id in t.running
    modifies agent
    ensures f == Outcome(agent.tools, call, b)
    ensures ToolPhase(agent, reply, t) && agent.mon == old(agent.mon)
    ensures ToolTraffic(agent.log) == ToolTraffic(old(agent.log)) + Reports(agent.tools, call, b)
    ensures Silent(old(agent.log), agent.log)
  {
    match Prepare(agent.tools, call, b) {
      case Immediate(output) => f := Finalized(call, output, true);
      case Prepared =>
        EmitUpdates(agent, reply, t, call, b.updates);
        f := Finalize(call, b);
    }
  }

  /** The tool part of one call, alone: start, prepare, execute, finalize, end. */
  method RunAlone(agent: Agent, ghost reply: AssistantMessage, ghost t: Tally, call: ToolCall, b: Behaviour)
    returns (f: Finalized)
    requires ToolPhase(agent, reply, t) && !reply.Failed() && t.open.None? && !t.aborted && t.running == multiset{}
    requires t.started < |ToolCalls(reply.content)| && call == ToolCalls(reply.content)[t.started]
    modifies agent
    ensures f == Outcome(agent.tools, call, b)
    ensures ToolPhase(agent, reply, t.(started := t.started + 1, finished := t.finished + multiset{ResultMessage(f)},
                                       continuing := t.continuing || !WantsTermination(f)))
    ensures agent.mon == old(agent.mon).(phase := agent.mon.phase)
    ensures ToolTraffic(agent.log) == ToolTraffic(old(agent.log)) + OwnEvents(agent.tools, call, b, Done(f))
    ensures Silent(old(agent.log), agent.log)
  {
    EmitToolStart(agent, reply, t, call);
    f := RunStarted(agent, reply, agent.mon.phase.tally, call, b);
    EmitToolEnd(agent, reply, agent.mon.phase.tally, f, multiset{});
    OwnEventsParts(ToolTraffic(old(agent.log)), agent.tools, call, b, f);
  }

  /** What the sequential executor does with one call: its tool part, then its result message. */
  method ExecuteOneCall(agent: Agent, ghost reply: AssistantMessage, ghost t: Tally, call: ToolCall, b: Behaviour)
    returns (f: Finalized)
    requires ToolPhase(agent, reply, t) && !reply.Failed()
    requires t == Tally(t.started, multiset{}, multiset{}, t.results, None, t.continuing, false)
    requires |t.results| == t.started < |ToolCalls(reply.content)| && call == ToolCalls(reply.content)[t.started]
    modifies agent
    ensures f == Outcome(agent.tools, call, b)
    ensures ToolPhase(agent, reply, t.(started := t.started + 1, results := t.results + [ResultMessage(f)],
                                       continuing := t.continuing || !WantsTermination(f)))
    ensures agent.mon == Deliver(old(agent.mon), ToolRun, ToolResult(ResultMessage(f)), agent.mon.phase)
    ensures ToolTraffic(agent.log) == ToolTraffic(old(agent.log)) + OwnEvents(agent.tools, call, b, Done(f))
    ensures Silent(old(agent.log), agent.log)
  {
    f := RunAlone(agent, reply, t, call, b);
    EmitToolResult(agent, reply, agent.mon.phase.tally, ResultMessage(f), multiset{});
  }

  /** Some call did not ask to terminate. */
  predicate SomeGoesOn(fs: seq<Finalized>) {
    exists i :: 0 <= i < |fs| && !WantsTermination(fs[i])
  }

  lemma SomeGoesOnGrows(fs: seq<Finalized>, f: Finalized)
    ensures SomeGoesOn(fs + [f]) <==> SomeGoesOn(fs) || !WantsTermination(f)
  {
    if i :| 0 <= i < |fs| && !WantsTermination(fs[i]) {
      assert (fs + [f])[i] == fs[i];
    }
    assert (fs + [f])[|fs|] == f;
  }

  /** Where a batch stands in the tally once `fs` are executed and delivered. */
  ghost function DeliveredTally(fs: seq<Finalized>, aborted: bool): Tally {
    Tally(|fs|, multiset{}, multiset{}, ResultMessages(fs), None,
          SomeGoesOn(fs), aborted)
  }

  lemma TallyGrows(fs: seq<Finalized>, f: Finalized)
    ensures var t := DeliveredTally(fs, false);
            DeliveredTally(fs + [f], false)
            == t.(started := |fs| + 1, results := t.results + [ResultMessage(f)],
                  continuing := t.continuing || !WantsTermination(f))
    ensures ToolDeliveries(ResultMessages(fs + [f]))
         == ToolDeliveries(ResultMessages(fs)) + [Delivery(ToolRun, ToolResult(ResultMessage(f)))]
  {
    SomeGoesOnGrows(fs, f);
    assert ResultMessages(fs + [f]) == ResultMessages(fs) + [ResultMessage(f)];
  }

  /** What either executor leaves behind, for a batch whose calls come to `fs`. */
  ghost predicate BatchDone(agent: Agent, m0: Monitor, reply: AssistantMessage, fs: seq<Finalized>, aborted: bool)
    reads agent, agent.steeringQueue, agent.followUpQueue
  {
    && ToolPhase(agent, reply, DeliveredTally(fs, aborted))
    && agent.mon == m0.(phase := agent.mon.phase, history := m0.history + ToolDeliveries(ResultMessages(fs)))
  }

  ghost method NoteAbort(agent: Agent, m0: Monitor, reply: AssistantMessage, fs: seq<Finalized>)
    requires BatchDone(agent, m0, reply, fs, false) && fs != []
    modifies agent`log, agent`mon
    ensures BatchDone(agent, m0, reply, fs, true)
    ensures ToolTraffic(agent.log) == ToolTraffic(old(agent.log))
    ensures Silent(old(agent.log), agent.log)
  {
    agent.Note(AbortSeen);
    ToolTrafficAppend(old(agent.log), AbortSeen);
  }

  lemma OutcomesGrow(tools: seq<Tool>, calls: seq<ToolCall>, behave: nat -> Behaviour, n: nat)
    requires n < |calls|
    ensures Outcomes(tools, calls, behave, n) + [Outcome(tools, calls[n], behave(n))]
         == Outcomes(tools, calls, behave, n + 1)
    ensures ResultMessages(Outcomes(tools, calls, behave, n + 1))
         == ResultMessages(Outcomes(tools, calls, behave, n)) + [ResultMessage(Outcome(tools, calls[n], behave(n)))]
  {
  }

  /** One iteration of the sequential executor. */
  method SequentialIteration(agent: Agent, ghost m0: Monitor, ghost reply: AssistantMessage,
                             ghost fs: seq<Finalized>, call: ToolCall, b: Behaviour)
    returns (f: Finalized)
    requires BatchDone(agent, m0, reply, fs, false) && !reply.Failed()
    requires |fs| < |ToolCalls(reply.content)| && call == ToolCalls(reply.content)[|fs|]
    modifies agent
    ensures f == Outcome(agent.tools, call, b)
    ensures BatchDone(agent, m0, reply, fs + [f], b.abortedAfter)
    ensures ToolTraffic(agent.log) == ToolTraffic(old(agent.log)) + OwnEvents(agent.tools, call, b, Done(f))
    ensures Silent(old(agent.log), agent.log)
  {
    f := ExecuteOneCall(agent, reply, DeliveredTally(fs, false), call, b);
    TallyGrows(fs, f);
    assert agent.mon.history == m0.history + ToolDeliveries(ResultMessages(fs + [f]));
    if b.abortedAfter {
      NoteAbort(agent, m0, reply, fs + [f]);
    }
  }

  /** The batch a reply asks for, cut where the signal is first seen aborted. */
  ghost function BatchJob(tools: seq<Tool>, calls: seq<ToolCall>, behave: nat -> Behaviour): (job: Job)
    ensures job.tools == tools && job.calls == calls && job.behave == behave && job.n == Handled(|calls|, behave)
    ensures Cut(job)
  {
    Job(tools, calls, behave, Handled(|calls|, behave))
  }

  /** A batch ends with its calls, or behind the first call that leaves the signal aborted. */
  ghost predicate Cut(job: Job) {
    && job.Valid() && (|job.calls| > 0 ==> job.n > 0)
    && (forall j :: 0 <= j < job.n - 1 ==> !job.behave(j).abortedAfter)
    && (job.n < |job.calls| ==> job.n > 0 && job.behave(job.n - 1).abortedAfter)
  }

  ghost predicate CutByAbort(job: Job) {
    job.n > 0 && job.behave(job.n - 1).abortedAfter
  }

  /** Where a loop over the calls of a batch stands that stops behind the first call that leaves the signal aborted. */
  ghost predicate StandsAt(job: Job, i: nat, aborted: bool) {
    && i <= job.n
    && if aborted then i == job.n && CutByAbort(job)
       else (i < |job.calls| ==> i < job.n) && (i == job.n ==> !CutByAbort(job))
  }

  lemma StandsAtStart(job: Job)
    requires Cut(job)
    ensures StandsAt(job, 0, false)
  {
  }

  lemma StandsNext(job: Job, i: nat)
    requires Cut(job) && StandsAt(job, i, false) && i < |job.calls|
    ensures StandsAt(job, i + 1, job.behave(i).abortedAfter)
  {
  }

  /** What either executor returns and leaves behind: the outcome of each handled call, in source order. */
  ghost predicate BatchExecuted(agent: Agent, m0: Monitor, reply: AssistantMessage, job: Job,
                                messages: seq<ToolResultMessage>, terminate: bool)
    requires job.Valid()
    reads agent, agent.steeringQueue, agent.followUpQueue
  {
    var fs := Outcomes(job.tools, job.calls, job.behave, job.n);
    && messages == ResultMessages(fs) && terminate == ShouldTerminate(fs)
    && BatchDone(agent, m0, reply, fs, CutByAbort(job))
  }

  /** The sequential executor has handled the first `i` calls of `job`. */
  ghost predicate HandledInTurn(agent: Agent, m0: Monitor, log0: seq<Action>, reply: AssistantMessage, job: Job, i: nat,
                                aborted: bool)
    requires i <= |job.calls|
    reads agent, agent.steeringQueue, agent.followUpQueue
  {
    && BatchDone(agent, m0, reply, Outcomes(job.tools, job.calls, job.behave, i), aborted)
    && ToolTraffic(agent.log) == ToolTraffic(log0) + Untagged(InTurn(OwnHistories(job), i))
    && Silent(log0, agent.log)
  }

  /** One iteration of the sequential executor, in terms of the batch it works on. */
  method SequentialStep(agent: Agent, ghost m0: Monitor, ghost log0: seq<Action>, ghost reply: AssistantMessage,
                        ghost job: Job, ghost i: nat, call: ToolCall, b: Behaviour, finalized: seq<Finalized>)
    returns (finalized': seq<Finalized>, message: ToolResultMessage)
    requires job.Valid() && i < |job.calls| && job.calls == ToolCalls(reply.content) && !reply.Failed()
    requires job.tools == agent.tools && call == job.calls[i] && b == job.behave(i)
    requires HandledInTurn(agent, m0, log0, reply, job, i, false)
    requires finalized == Outcomes(job.tools, job.calls, job.behave, i)
    modifies agent
    ensures finalized' == Outcomes(job.tools, job.calls, job.behave, i + 1)
    ensures ResultMessages(finalized') == ResultMessages(finalized) + [message]
    ensures HandledInTurn(agent, m0, log0, reply, job, i + 1, b.abortedAfter)
  {
    var f := SequentialIteration(agent, m0, reply, finalized, call, b);
    finalized' := finalized + [f];
    message := ResultMessage(f);
    OutcomesGrow(job.tools, job.calls, job.behave, i);
    InTurnStep(OwnHistories(job), i);
    Regroup(ToolTraffic(log0), Untagged(InTurn(OwnHistories(job), i)), OwnHistory(job, i));
  }

  lemma NothingHandled(agent: Agent, reply: AssistantMessage, job: Job)
    requires ToolPhase(agent, reply, NO_TOOLS)
    ensures HandledInTurn(agent, agent.mon, agent.log, reply, job, 0, false)
  {
  }

  /** The loop of the sequential executor. */
  method HandleInTurn(agent: Agent, ghost reply: AssistantMessage, ghost job: Job, calls: seq<ToolCall>,
                      behave: nat -> Behaviour)
    returns (finalized: seq<Finalized>, messages: seq<ToolResultMessage>)
    requires ToolPhase(agent, reply, NO_TOOLS) && !reply.Failed() && calls == ToolCalls(reply.content)
    requires Cut(job) && job.tools == agent.tools && job.calls == calls && job.behave == behave
    modifies agent
    ensures finalized == Outcomes(job.tools, calls, behave, job.n) && messages == ResultMessages(finalized)
    ensures HandledInTurn(agent, old(agent.mon), old(agent.log), reply, job, job.n, CutByAbort(job))
  {
    ghost var m0, log0 := agent.mon, agent.log;
    finalized, messages := [], [];
    var i, aborted := 0, false;
    StandsAtStart(job);
    NothingHandled(agent, reply, job);
    while i < |calls| && !aborted
      invariant StandsAt(job, i, aborted)
      invariant finalized == Outcomes(job.tools, calls, behave, i) && messages == ResultMessages(finalized)
      invariant HandledInTurn(agent, m0, log0, reply, job, i, aborted)
    {
      StandsNext(job, i);
      var message;
      finalized, message := SequentialStep(agent, m0, log0, reply, job, i, calls[i], behave(i), finalized);
      messages := messages + [message];
      aborted := behave(i).abortedAfter;
      i := i + 1;
    }
  }

  /** The sequential executor. The tool events it emits are each call's own history, one call after the other. */
  method ExecuteToolCallsSequential(agent: Agent, ghost reply: AssistantMessage, calls: seq<ToolCall>,
                                    behave: nat -> Behaviour)
    returns (messages: seq<ToolResultMessage>, terminate: bool)
    requires ToolPhase(agent, reply, NO_TOOLS) && !reply.Failed() && calls == ToolCalls(reply.content)
    modifies agent
    ensures BatchExecuted(agent, old(agent.mon), reply, BatchJob(agent.tools, calls, behave), messages, terminate)
    ensures BatchTells(agent.tools, calls, behave, messages, terminate)
    ensures ToolTraffic(agent.log)
         == ToolTraffic(old(agent.log)) + Untagged(SequentialTrace(BatchJob(agent.tools, calls, behave)))
    ensures Silent(old(agent.log), agent.log)
  {
    var finalized;
    finalized, messages := HandleInTurn(agent, reply, BatchJob(agent.tools, calls, behave), calls, behave);
    terminate := ShouldTerminate(finalized);
    OutcomesTell(agent.tools, calls, behave);
  }

  /** A parallel batch between its first start and its first result message. */
  ghost predicate Underway(agent: Agent, m0: Monitor, reply: AssistantMessage, entries: seq<Entry>, aborted: bool)
    reads agent, agent.steeringQueue, agent.followUpQueue
  {
    && |entries| <= |ToolCalls(reply.content)|
    && ToolPhase(agent, reply, TallyOf(ToolCalls(reply.content), entries, aborted))
    && agent.mon == m0.(phase := agent.mon.phase)
  }

  /** One iteration of the preparation pass: a call that is not going to run is finished at once. */
  method LaunchOne(agent: Agent, ghost reply: AssistantMessage, ghost t: Tally, call: ToolCall, b: Behaviour)
    returns (e: Entry)
    requires ToolPhase(agent, reply, t) && !reply.Failed() && t.open.None? && !t.aborted
    requires t.started < |ToolCalls(reply.content)| && call == ToolCalls(reply.content)[t.started]
    modifies agent
    ensures e == FirstEntry(agent.tools, call, b)
    ensures agent.Valid() && agent.activeRun && agent.mon.phase.Responded? && agent.mon.phase.reply == reply
    ensures LaunchEffect(t, call, e, agent.mon.phase.tally)
    ensures agent.mon == old(agent.mon).(phase := agent.mon.phase)
    ensures ToolTraffic(agent.log) == ToolTraffic(old(agent.log)) + ([StartEvent(call)] + EndOf(e))
    ensures Silent(old(agent.log), agent.log)
  {
    EmitToolStart(agent, reply, t, call);
    match Prepare(agent.tools, call, b) {
      case Immediate(output) =>
        var f := Finalized(call, output, true);
        EmitToolEnd(agent, reply, agent.mon.phase.tally, f, t.running);
        e := Done(f);
      case Prepared =>
        e := Running(0);
    }
  }

  /** One move of a running call, chosen by the scheduler. */
  method MoveOne(agent: Agent, ghost reply: AssistantMessage, ghost t: Tally, ghost t': Tally,
                 entry: Entry, call: ToolCall, b: Behaviour)
    returns (e: Entry)
    requires ToolPhase(agent, reply, t) && t.open.None? && !entry.Done?
    requires MoveEffect(t, call, MoveEntry(call, b, entry).0, t')
    modifies agent
    ensures e == MoveEntry(call, b, entry).0
    ensures ToolPhase(agent, reply, t') && agent.mon == old(agent.mon).(phase := agent.mon.phase)
    ensures ToolTraffic(agent.log) == ToolTraffic(old(agent.log)) + EventOf(MoveEntry(call, b, entry).1)
    ensures Silent(old(agent.log), agent.log)
  {
    match entry {
      case Running(k) =>
        if k < |b.updates| {
          EmitToolUpdate(agent, reply, t, call, b.updates[k]);
          e := Running(k + 1);
        } else {
          e := Quiet;
        }
      case Quiet =>
        var f := Finalize(call, b);
        EmitToolEnd(agent, reply, t, f, t'.running);
        e := Done(f);
    }
  }

  function EventOf(event: Option<AgentEvent>): seq<AgentEvent> {
    if event.Some? then [event.value] else []
  }

  /** A batch whose calls are all done and of which the first `k` results have been delivered. */
  ghost predicate Delivering(agent: Agent, m0: Monitor, reply: AssistantMessage, fs: seq<Finalized>, k: nat,
                             aborted: bool)
    requires k <= |fs|
    reads agent, agent.steeringQueue, agent.followUpQueue
  {
    && ToolPhase(agent, reply, ResultsTally(fs, k, aborted))
    && agent.mon == m0.(phase := agent.mon.phase, history := m0.history + ToolDeliveries(ResultMessages(fs)[..k]))
  }

  ghost predicate InSourceOrder(fs: seq<Finalized>, calls: seq<ToolCall>) {
    |fs| <= |calls| && forall i :: 0 <= i < |fs| ==> fs[i].call == calls[i]
  }

  method DeliverOne(agent: Agent, ghost m0: Monitor, ghost reply: AssistantMessage, ghost aborted: bool,
                    fs: seq<Finalized>, k: nat)
    requires k < |fs| && InSourceOrder(fs, ToolCalls(reply.content))
    requires Delivering(agent, m0, reply, fs, k, aborted)
    modifies agent
    ensures Delivering(agent, m0, reply, fs, k + 1, aborted)
    ensures ToolTraffic(agent.log) == ToolTraffic(old(agent.log))
    ensures Silent(old(agent.log), agent.log)
  {
    ghost var rs := ResultMessages(fs);
    var result := ResultMessage(fs[k]);
    ResultsTallyStep(fs, k, aborted);
    EmitToolResult(agent, reply, ResultsTally(fs, k, aborted), result, multiset(rs[k + 1..]));
    assert rs[..k + 1] == rs[..k] + [result];
    assert agent.mon.history == m0.history + ToolDeliveries(rs[..k + 1]);
  }

  /** After every call is done: the result messages, in source order. */
  method DeliverResults(agent: Agent, ghost m0: Monitor, ghost reply: AssistantMessage, ghost aborted: bool,
                        fs: seq<Finalized>)
    returns (messages: seq<ToolResultMessage>)
    requires InSourceOrder(fs, ToolCalls(reply.content))
    requires Delivering(agent, m0, reply, fs, 0, aborted)
    modifies agent
    ensures messages == ResultMessages(fs)
    ensures BatchDone(agent, m0, reply, fs, aborted)
    ensures ToolTraffic(agent.log) == ToolTraffic(old(agent.log))
    ensures Silent(old(agent.log), agent.log)
  {
    messages := [];
    for k := 0 to |fs|
      invariant messages == ResultMessages(fs)[..k]
      invariant Delivering(agent, m0, reply, fs, k, aborted)
      invariant ToolTraffic(agent.log) == ToolTraffic(old(agent.log)) && Silent(old(agent.log), agent.log)
    {
      DeliverOne(agent, m0, reply, aborted, fs, k);
      OneMoreResult(fs, k);
      messages := messages + [ResultMessage(fs[k])];
    }
    AllDelivered(fs, aborted);
  }

  lemma OneMoreResult(fs: seq<Finalized>, k: nat)
    requires k < |fs|
    ensures ResultMessages(fs)[..k + 1] == ResultMessages(fs)[..k] + [ResultMessage(fs[k])]
  {
  }

  lemma AllDelivered(fs: seq<Finalized>, aborted: bool)
    ensures ResultsTally(fs, |fs|, aborted) == DeliveredTally(fs, aborted)
    ensures ResultMessages(fs)[..|fs|] == ResultMessages(fs)
  {
    WholeSlice(ResultMessages(fs));
  }

  /** The tally of a batch whose calls are all done and of which `k` results have been delivered. */
  ghost function ResultsTally(fs: seq<Finalized>, k: nat, aborted: bool): Tally
    requires k <= |fs|
  {
    Tally(|fs|, multiset{}, multiset(ResultMessages(fs)[k..]), ResultMessages(fs)[..k], None,
          SomeGoesOn(fs), aborted)
  }

  lemma ResultsTallyStep(fs: seq<Finalized>, k: nat, aborted: bool)
    requires k < |fs|
    ensures ResultsTally(fs, k, aborted).finished
         == multiset(ResultMessages(fs)[k + 1..]) + multiset{ResultMessage(fs[k])}
    ensures ResultsTally(fs, k + 1, aborted).results == ResultsTally(fs, k, aborted).results + [ResultMessage(fs[k])]
  {
    var rs := ResultMessages(fs);
    assert rs[k..] == [rs[k]] + rs[k + 1..];
    OneMoreResult(fs, k);
  }

  lemma CollectedGoesOn(s: Batch)
    requires Complete(s)
    ensures AnyContinuing(s.entries) <==> SomeGoesOn(Collected(s))
  {
    var fs := Collected(s);
    if i :| 0 <= i < |s.entries| && s.entries[i].Done? && !WantsTermination(s.entries[i].outcome) {
      assert !WantsTermination(fs[i]);
    }
    if i :| 0 <= i < |fs| && !WantsTermination(fs[i]) {
      assert s.entries[i].Done? && !WantsTermination(s.entries[i].outcome);
    }
  }

  lemma CompleteIsResultsTally(calls: seq<ToolCall>, s: Batch, aborted: bool)
    requires |s.entries| <= |calls| && Complete(s)
    ensures TallyOf(calls, s.entries, aborted) == ResultsTally(Collected(s), 0, aborted)
  {
    CompleteTally(calls, s);
    CollectedGoesOn(s);
    WholeSlice(ResultMessages(Collected(s)));
  }

  lemma WholeSlice(rs: seq<ToolResultMessage>)
    ensures rs[0..] == rs && rs[..0] == [] && rs[..|rs|] == rs && rs[|rs|..] == []
  {
  }

  /** The batch under way is the step machine's, and so is its traffic since `log0`. */
  ghost predicate Mirrors(agent: Agent, m0: Monitor, log0: seq<Action>, reply: AssistantMessage, s: Batch,
                          aborted: bool)
    reads agent, agent.steeringQueue, agent.followUpQueue
  {
    && Underway(agent, m0, reply, s.entries, aborted)
    && ToolTraffic(agent.log) == ToolTraffic(log0) + Untagged(s.trace)
    && Silent(log0, agent.log)
  }

  /** `s'` is `s` with one more call prepared. */
  ghost predicate Prepares(s: Batch, call: ToolCall, e: Entry, s': Batch) {
    && s'.entries == s.entries + [e]
    && Untagged(s'.trace) == Untagged(s.trace) + ([StartEvent(call)] + EndOf(e))
  }

  lemma Regroup(a: seq<AgentEvent>, b: seq<AgentEvent>, c: seq<AgentEvent>)
    ensures a + b + c == a + (b + c)
  {
  }

  /** One iteration of the preparation pass, against the step machine. */
  method PrepareOne(agent: Agent, ghost m0: Monitor, ghost log0: seq<Action>, ghost reply: AssistantMessage,
                    ghost s: Batch, ghost s': Batch, call: ToolCall, b: Behaviour)
    returns (e: Entry)
    requires |s.entries| < |ToolCalls(reply.content)| && call == ToolCalls(reply.content)[|s.entries|]
    requires Prepares(s, call, FirstEntry(agent.tools, call, b), s') && !reply.Failed()
    requires Mirrors(agent, m0, log0, reply, s, false)
    modifies agent
    ensures e == FirstEntry(agent.tools, call, b)
    ensures Mirrors(agent, m0, log0, reply, s', b.abortedAfter)
  {
    e := LaunchInto(agent, m0, log0, reply, s, s', call, b);
    if b.abortedAfter {
      NoteAbortUnderway(agent, m0, log0, reply, s');
    }
  }

  method LaunchInto(agent: Agent, ghost m0: Monitor, ghost log0: seq<Action>, ghost reply: AssistantMessage,
                    ghost s: Batch, ghost s': Batch, call: ToolCall, b: Behaviour)
    returns (e: Entry)
    requires |s.entries| < |ToolCalls(reply.content)| && call == ToolCalls(reply.content)[|s.entries|]
    requires Prepares(s, call, FirstEntry(agent.tools, call, b), s') && !reply.Failed()
    requires Mirrors(agent, m0, log0, reply, s, false)
    modifies agent
    ensures e == FirstEntry(agent.tools, call, b)
    ensures Mirrors(agent, m0, log0, reply, s', false)
  {
    ghost var calls := ToolCalls(reply.content);
    e := LaunchOne(agent, reply, TallyOf(calls, s.entries, false), call, b);
    LaunchTally(calls, s.entries, e);
    Regroup(ToolTraffic(log0), Untagged(s.trace), [StartEvent(call)] + EndOf(e));
  }

  lemma NothingLaunched(job: Job)
    requires job.Valid()
    ensures TallyOf(job.calls, Launch(job, 0).entries, false) == NO_TOOLS
    ensures Untagged(Launch(job, 0).trace) == []
  {
  }

  /** The preparation pass of the parallel executor. */
  method PrepareAll(agent: Agent, ghost reply: AssistantMessage, ghost job: Job, calls: seq<ToolCall>,
                    behave: nat -> Behaviour)
    returns (entries: seq<Entry>)
    requires ToolPhase(agent, reply, NO_TOOLS) && !reply.Failed() && calls == ToolCalls(reply.content)
    requires Cut(job) && job.tools == agent.tools && job.calls == calls && job.behave == behave
    modifies agent
    ensures entries == Execute(job, []).entries
    ensures Mirrors(agent, old(agent.mon), old(agent.log), reply, Execute(job, []), CutByAbort(job))
  {
    ghost var m0, log0 := agent.mon, agent.log;
    entries := [];
    NothingLaunched(job);
    ghost var s := Launch(job, 0);
    var i, aborted := 0, false;
    StandsAtStart(job);
    while i < |calls| && !aborted
      invariant StandsAt(job, i, aborted)
      invariant s == Launch(job, i) && entries == s.entries
      invariant Mirrors(agent, m0, log0, reply, s, aborted)
    {
      StandsNext(job, i);
      LaunchStep(job, i);
      ghost var s' := Launch(job, i + 1);
      var e := PrepareOne(agent, m0, log0, reply, s, s', calls[i], behave(i));
      s := s';
      entries := entries + [e];
      aborted := behave(i).abortedAfter;
      i := i + 1;
    }
  }

  /** One step of the concurrent phase, against the step machine. */
  method ScheduleOne(agent: Agent, ghost m0: Monitor, ghost log0: seq<Action>, ghost reply: AssistantMessage,
                     ghost aborted: bool, ghost job: Job, ghost schedule: seq<Choice>,
                     i: nat, entry: Entry, call: ToolCall, b: Behaviour)
    returns (e: Entry)
    requires job.Valid() && i < job.n && job.calls == ToolCalls(reply.content)
    requires call == job.calls[i] && b == job.behave(i)
    requires entry == Execute(job, schedule).entries[i] && !entry.Done?
    requires Mirrors(agent, m0, log0, reply, Execute(job, schedule), aborted)
    modifies agent
    ensures e == MoveEntry(call, b, entry).0
    ensures Execute(job, schedule + [Choice(i, NextAct(b, entry))]).entries == Execute(job, schedule).entries[i := e]
    ensures Mirrors(agent, m0, log0, reply, Execute(job, schedule + [Choice(i, NextAct(b, entry))]), aborted)
  {
    ghost var s := Execute(job, schedule);
    ghost var e' := MoveEntry(call, b, entry).0;
    ScheduleStep(job, schedule, i);
    MoveTally(job.calls, s.entries, i, e', aborted);
    e := MoveOne(agent, reply, TallyOf(job.calls, s.entries, aborted),
                 TallyOf(job.calls, s.entries[i := e'], aborted), entry, call, b);
    Regroup(ToolTraffic(log0), Untagged(s.trace), EventOf(MoveEntry(call, b, entry).1));
  }

  /** The concurrent phase: as long as a call is unfinished, any unfinished call may move next. */
  method RunConcurrently(agent: Agent, ghost m0: Monitor, ghost log0: seq<Action>, ghost reply: AssistantMessage,
                         ghost aborted: bool, ghost job: Job, prepared: seq<Entry>, calls: seq<ToolCall>,
                         behave: nat -> Behaviour)
    returns (entries: seq<Entry>, ghost schedule: seq<Choice>)
    requires job.Valid() && job.calls == calls == ToolCalls(reply.content) && job.behave == behave
    requires prepared == Execute(job, []).entries
    requires Mirrors(agent, m0, log0, reply, Execute(job, []), aborted)
    modifies agent
    ensures entries == Execute(job, schedule).entries && Complete(Execute(job, schedule))
    ensures Mirrors(agent, m0, log0, reply, Execute(job, schedule), aborted)
  {
    entries, schedule := prepared, [];
    EveryScheduleConsistent(job, []);
    PossibleIsBounded(job, Execute(job, []));
    while exists i :: 0 <= i < |entries| && !entries[i].Done?
      invariant entries == Execute(job, schedule).entries
      invariant forall i :: 0 <= i < |entries| && entries[i].Running? ==> entries[i].reported <= |behave(i).updates|
      invariant Mirrors(agent, m0, log0, reply, Execute(job, schedule), aborted)
      decreases TotalMovesLeft(behave, entries)
    {
      var i: nat :| 0 <= i < |entries| && !entries[i].Done?;
      MoveMakesProgress(calls, behave, entries, i);
      var e := ScheduleOne(agent, m0, log0, reply, aborted, job, schedule, i, entries[i], calls[i], behave(i));
      schedule := schedule + [Choice(i, NextAct(behave(i), entries[i]))];
      entries := entries[i := e];
    }
  }

  /**
   * The parallel executor. The scheduler's choices are arbitrary; `schedule` records them. The tool events it emits
   * are those of the step machine under that schedule, and what it leaves behind is what the sequential executor
   * leaves behind.
   */
  method ExecuteToolCallsParallel(agent: Agent, ghost reply: AssistantMessage, calls: seq<ToolCall>,
                                  behave: nat -> Behaviour)
    returns (messages: seq<ToolResultMessage>, terminate: bool, ghost schedule: seq<Choice>)
    requires ToolPhase(agent, reply, NO_TOOLS) && !reply.Failed() && calls == ToolCalls(reply.content)
    modifies agent
    ensures BatchExecuted(agent, old(agent.mon), reply, BatchJob(agent.tools, calls, behave), messages, terminate)
    ensures BatchTells(agent.tools, calls, behave, messages, terminate)
    ensures var job := BatchJob(agent.tools, calls, behave);
            && Complete(Execute(job, schedule))
            && ToolTraffic(agent.log) == ToolTraffic(old(agent.log)) + Untagged(Execute(job, schedule).trace)
    ensures Silent(old(agent.log), agent.log)
  {
    ghost var m0, log0 := agent.mon, agent.log;
    ghost var job := BatchJob(agent.tools, calls, behave);
    ghost var aborted := CutByAbort(job);
    var entries := PrepareAll(agent, reply, job, calls, behave);
    entries, schedule := RunConcurrently(agent, m0, log0, reply, aborted, job, entries, calls, behave);
    messages, terminate := FinishParallel(agent, m0, log0, reply, job, schedule, entries);
    OutcomesTell(agent.tools, calls, behave);
  }

  /** Collecting the outcomes in source order and delivering them. */
  method FinishParallel(agent: Agent, ghost m0: Monitor, ghost log0: seq<Action>, ghost reply: AssistantMessage,
                        ghost job: Job, ghost schedule: seq<Choice>, entries: seq<Entry>)
    returns (messages: seq<ToolResultMessage>, terminate: bool)
    requires job.Valid() && job.calls == ToolCalls(reply.content) && Complete(Execute(job, schedule))
    requires entries == Execute(job, schedule).entries
    requires Mirrors(agent, m0, log0, reply, Execute(job, schedule), CutByAbort(job))
    modifies agent
    ensures BatchExecuted(agent, m0, reply, job, messages, terminate)
    ensures ToolTraffic(agent.log) == ToolTraffic(log0) + Untagged(Execute(job, schedule).trace)
    ensures Silent(log0, agent.log)
  {
    ghost var aborted := CutByAbort(job);
    ReadyToDeliver(job, schedule, aborted);
    NothingDelivered(m0, Outcomes(job.tools, job.calls, job.behave, job.n));
    var finalized := seq(|entries|, i requires 0 <= i < |entries| => entries[i].outcome);
    assert finalized == Collected(Execute(job, schedule));
    messages := DeliverResults(agent, m0, reply, aborted, finalized);
    terminate := ShouldTerminate(finalized);
  }

  /** A complete batch has collected the outcomes in source order, and the tally is ready for their delivery. */
  lemma ReadyToDeliver(job: Job, schedule: seq<Choice>, aborted: bool)
    requires job.Valid() && Complete(Execute(job, schedule))
    ensures var s := Execute(job, schedule);
            var fs := Outcomes(job.tools, job.calls, job.behave, job.n);
            && Collected(s) == fs && InSourceOrder(fs, job.calls)
            && TallyOf(job.calls, s.entries, aborted) == ResultsTally(fs, 0, aborted)
  {
    ParallelRefinesSequential(job, schedule);
    CompleteIsResultsTally(job.calls, Execute(job, schedule), aborted);
    OutcomesInOrder(job);
  }

  lemma OutcomesInOrder(job: Job)
    requires job.Valid()
    ensures InSourceOrder(Outcomes(job.tools, job.calls, job.behave, job.n), job.calls)
  {
  }

  lemma NothingDelivered(m: Monitor, fs: seq<Finalized>)
    ensures m.history + ToolDeliveries(ResultMessages(fs)[..0]) == m.history
  {
  }

  ghost method NoteAbortUnderway(agent: Agent, m0: Monitor, log0: seq<Action>, reply: AssistantMessage, s: Batch)
    requires Mirrors(agent, m0, log0, reply, s, false) && s.entries != []
    modifies agent`log, agent`mon
    ensures Mirrors(agent, m0, log0, reply, s, true)
  {
    ToolTrafficAppend(agent.log, AbortSeen);
    agent.Note(AbortSeen);
  }

  lemma {:induction false} UntaggedTagAll(events: seq<AgentEvent>, index: nat)
    ensures Untagged(TagAll(events, index)) == events
  {
    if events != [] {
      UntaggedTagAll(events[..|events| - 1], index);
    }
  }

  lemma UntaggedAppend(a: seq<Tagged>, b: seq<Tagged>)
    ensures Untagged(a + b) == Untagged(a) + Untagged(b)
  {
  }

  lemma InTurnStep(history: nat -> seq<AgentEvent>, i: nat)
    ensures Untagged(InTurn(history, i + 1)) == Untagged(InTurn(history, i)) + history(i)
  {
    UntaggedAppend(InTurn(history, i), TagAll(history(i), i));
    UntaggedTagAll(history(i), i);
  }

  lemma LaunchStep(job: Job, i: nat)
    requires job.Valid() && i < job.n
    ensures Prepares(Launch(job, i), job.calls[i], Launched(job, i), Launch(job, i + 1))
  {
    InTurnStep(LaunchHistory(job), i);
    assert LaunchHistory(job)(i) == LaunchEvents(job, i);
  }

  lemma ScheduleStep(job: Job, schedule: seq<Choice>, i: nat)
    requires job.Valid() && i < job.n && !Execute(job, schedule).entries[i].Done?
    ensures var s := Execute(job, schedule);
            var s' := Execute(job, schedule + [Choice(i, NextAct(job.behave(i), s.entries[i]))]);
            var (e, event) := MoveEntry(job.calls[i], job.behave(i), s.entries[i]);
            && s'.entries == s.entries[i := e]
            && Untagged(s'.trace) == Untagged(s.trace) + EventOf(event)
  {
    var c := Choice(i, NextAct(job.behave(i), Execute(job, schedule).entries[i]));
    assert (schedule + [c])[..|schedule|] == schedule;
  }

  lemma PossibleIsBounded(job: Job, s: Batch)
    requires job.Valid() && |s.entries| == job.n && Consistent(job, s)
    ensures forall i :: 0 <= i < job.n && s.entries[i].Running? ==> s.entries[i].reported <= |job.behave(i).updates|
  {
    forall i: nat | i < job.n && s.entries[i].Running? ensures s.entries[i].reported <= |job.behave(i).updates| {
      assert ConsistentAt(job, s, i);
    }
  }
}
