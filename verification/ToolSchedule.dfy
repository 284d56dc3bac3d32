/**
 * The parallel executor as a step machine. Calls are prepared in source order; the prepared ones then run
 * concurrently, and a scheduler picks which of them moves next. Every theorem is about all schedules.
 */
module ToolSchedule {
  import opened Common
  import opened AgentTypes
  import opened ToolOutcome

  /** A batch to execute: `n` of the calls are handled, the rest are cut off by an abort. */
  datatype Job = Job(tools: seq<Tool>, calls: seq<ToolCall>, behave: nat -> Behaviour, n: nat)
  {
    ghost predicate Valid() {
      n <= |calls|
    }
  }

  /** `Running(k)` has reported k updates; `Quiet` has settled, so its update callback is now ignored. */
  datatype Entry = Running(reported: nat) | Quiet | Done(outcome: Finalized)

  datatype Tagged = Tagged(index: nat, event: AgentEvent)

  datatype Batch = Batch(entries: seq<Entry>, trace: seq<Tagged>)

  /** A tool calls its update callback, at any time; or a call settles or is finalized. */
  datatype Act = Callback(partial: string) | Move

  datatype Choice = Choice(index: nat, act: Act)

  function StartEvent(call: ToolCall): AgentEvent {
    ToolStart(call.id, call.name, call.arguments)
  }

  function UpdateEvent(call: ToolCall, partial: string): AgentEvent {
    ToolUpdate(call.id, call.name, call.arguments, partial)
  }

  function EndEvent(f: Finalized): AgentEvent {
    ToolEnd(f.call.id, f.call.name, f.output, f.isError)
  }

  /** The entry a call has right after its preparation. */
  function FirstEntry(tools: seq<Tool>, call: ToolCall, b: Behaviour): Entry {
    match Prepare(tools, call, b)
    case Immediate(output) => Done(Finalized(call, output, true))
    case Prepared => Running(0)
  }

  /** Whether the update callback of a call still gets through. */
  predicate Accepting(e: Entry) {
    e.Running?
  }

  /**
   * What an act of a call does to its entry, and the event it emits, if any. As long as the call runs its tool reports
   * its updates one after the other and then settles; callbacks after that come in any number and with any content.
   */
  function StepEntry(call: ToolCall, b: Behaviour, e: Entry, act: Act): (Entry, Option<AgentEvent>) {
    match act
    case Callback(partial) =>
      if !Accepting(e) then (e, None)
      else if e.reported < |b.updates| && b.updates[e.reported] == partial
      then (Running(e.reported + 1), Some(UpdateEvent(call, partial)))
      else (e, None)
    case Move =>
      match e
      case Running(k) => if k < |b.updates| then (e, None) else (Quiet, None)
      case Quiet =>
        var f := Finalize(call, b);
        (Done(f), Some(EndEvent(f)))
      case Done(_) => (e, None)
  }

  /** The act that brings an unfinished call forward. */
  function NextAct(b: Behaviour, e: Entry): Act {
    if e.Running? && e.reported < |b.updates| then Callback(b.updates[e.reported]) else Move
  }

  function MoveEntry(call: ToolCall, b: Behaviour, e: Entry): (Entry, Option<AgentEvent>) {
    StepEntry(call, b, e, NextAct(b, e))
  }

  function TagAll(events: seq<AgentEvent>, index: nat): seq<Tagged> {
    if events == [] then []
    else TagAll(events[..|events| - 1], index) + [Tagged(index, events[|events| - 1])]
  }

  /** The histories of calls 0, ..., k - 1, one after the other. */
  function InTurn(history: nat -> seq<AgentEvent>, k: nat): seq<Tagged> {
    if k == 0 then [] else InTurn(history, k - 1) + TagAll(history(k - 1), k - 1)
  }

  function EndOf(e: Entry): seq<AgentEvent> {
    if e.Done? then [EndEvent(e.outcome)] else []
  }

  /** What the preparation pass makes of call `i`, and what it emits for it. */
  function Launched(job: Job, i: nat): Entry
    requires i < |job.calls|
  {
    FirstEntry(job.tools, job.calls[i], job.behave(i))
  }

  function LaunchEvents(job: Job, i: nat): seq<AgentEvent> {
    if i < |job.calls| then [StartEvent(job.calls[i])] + EndOf(Launched(job, i)) else []
  }

  function LaunchHistory(job: Job): nat -> seq<AgentEvent> {
    (i: nat) => LaunchEvents(job, i)
  }

  /** The preparation pass over the first `k` calls. */
  function Launch(job: Job, k: nat): (r: Batch)
    requires job.Valid() && k <= job.n
    ensures |r.entries| == k
  {
    Batch(seq(k, i requires 0 <= i < k => Launched(job, i)), InTurn(LaunchHistory(job), k))
  }

  /** What the scheduler's choice does; an act that is not due changes nothing. */
  function Step(job: Job, s: Batch, c: Choice): (r: Batch)
    requires job.Valid() && |s.entries| == job.n
    ensures |r.entries| == job.n
  {
    if c.index >= job.n then s
    else
      var (entry, event) := StepEntry(job.calls[c.index], job.behave(c.index), s.entries[c.index], c.act);
      Batch(s.entries[c.index := entry],
            s.trace + (if event.Some? then [Tagged(c.index, event.value)] else []))
  }

  /** The state after preparing the whole batch and then following `schedule`. */
  function Execute(job: Job, schedule: seq<Choice>): (r: Batch)
    requires job.Valid()
    ensures |r.entries| == job.n
  {
    if schedule == [] then Launch(job, job.n)
    else Step(job, Execute(job, schedule[..|schedule| - 1]), schedule[|schedule| - 1])
  }

  predicate Complete(s: Batch) {
    forall i :: 0 <= i < |s.entries| ==> s.entries[i].Done?
  }

  /** The outcomes in source order, as `Promise.all` hands them out. */
  function Collected(s: Batch): (r: seq<Finalized>)
    requires Complete(s)
    ensures |r| == |s.entries|
    ensures forall i :: 0 <= i < |r| ==> r[i] == s.entries[i].outcome
  {
    seq(|s.entries|, i requires 0 <= i < |s.entries| => s.entries[i].outcome)
  }

  /** The events of one call, in the order they were emitted. */
  function Project(trace: seq<Tagged>, i: nat): seq<AgentEvent> {
    if trace == [] then []
    else
      Project(trace[..|trace| - 1], i)
      + (if trace[|trace| - 1].index == i then [trace[|trace| - 1].event] else [])
  }

  function UpdateEvents(call: ToolCall, updates: seq<string>): (r: seq<AgentEvent>)
    ensures |r| == |updates|
    ensures forall i :: 0 <= i < |r| ==> r[i] == UpdateEvent(call, updates[i])
  {
    seq(|updates|, i requires 0 <= i < |updates| => UpdateEvent(call, updates[i]))
  }

  /** What a call alone has emitted when its entry is `e`: a start, updates, and at most one end. */
  function OwnEvents(tools: seq<Tool>, call: ToolCall, b: Behaviour, e: Entry): seq<AgentEvent>
    requires e.Running? ==> e.reported <= |b.updates|
  {
    var ran := Prepare(tools, call, b).Prepared?;
    [StartEvent(call)]
    + match e
      case Running(k) => UpdateEvents(call, b.updates[..k])
      case Quiet => UpdateEvents(call, b.updates)
      case Done(f) => (if ran then UpdateEvents(call, b.updates) else []) + [EndEvent(f)]
  }

  /** All that call `i` emits when it is executed on its own. */
  function OwnHistory(job: Job, i: nat): seq<AgentEvent> {
    if i < |job.calls| then
      OwnEvents(job.tools, job.calls[i], job.behave(i), Done(Outcome(job.tools, job.calls[i], job.behave(i))))
    else []
  }

  function OwnHistories(job: Job): nat -> seq<AgentEvent> {
    (i: nat) => OwnHistory(job, i)
  }

  /** The sequential executor's tool events: each call's history, one call after the other. */
  function SequentialTrace(job: Job): seq<Tagged> {
    InTurn(OwnHistories(job), job.n)
  }

  /** Where an entry can be, for a call with this behaviour. */
  predicate Possible(tools: seq<Tool>, call: ToolCall, b: Behaviour, e: Entry) {
    match e
    case Running(k) => Prepare(tools, call, b).Prepared? && k <= |b.updates|
    case Quiet => Prepare(tools, call, b).Prepared?
    case Done(f) => f == Outcome(tools, call, b)
  }

  lemma {:induction false} ProjectAppend(trace: seq<Tagged>, more: seq<Tagged>, i: nat)
    ensures Project(trace + more, i) == Project(trace, i) + Project(more, i)
  {
    if more == [] {
      assert trace + more == trace;
    } else {
      var last := |more| - 1;
      ProjectAppend(trace, more[..last], i);
      assert (trace + more)[..|trace + more| - 1] == trace + more[..last];
    }
  }

  lemma {:induction false} ProjectOne(t: Tagged, i: nat)
    ensures Project([t], i) == if t.index == i then [t.event] else []
  {
    assert [t][..0] == [];
    assert Project([t][..0], i) == [];
  }

  lemma {:induction false} ProjectUniform(events: seq<AgentEvent>, index: nat, i: nat)
    ensures Project(TagAll(events, index), i) == if index == i then events else []
  {
    if events != [] {
      var front, last := events[..|events| - 1], Tagged(index, events[|events| - 1]);
      ProjectUniform(front, index, i);
      ProjectAppend(TagAll(front, index), [last], i);
      ProjectOne(last, i);
    }
  }

  /** The invariant of every reachable state, seen from call `i`. */
  ghost predicate ConsistentAt(job: Job, s: Batch, i: nat)
    requires job.Valid() && |s.entries| == job.n
  {
    if i < job.n then
      && Possible(job.tools, job.calls[i], job.behave(i), s.entries[i])
      && Project(s.trace, i) == OwnEvents(job.tools, job.calls[i], job.behave(i), s.entries[i])
    else Project(s.trace, i) == []
  }

  ghost predicate Consistent(job: Job, s: Batch)
    requires job.Valid() && |s.entries| == job.n
  {
    forall i: nat :: ConsistentAt(job, s, i)
  }

  lemma FirstEntryOwn(tools: seq<Tool>, call: ToolCall, b: Behaviour)
    ensures var e := FirstEntry(tools, call, b);
            && Possible(tools, call, b, e)
            && OwnEvents(tools, call, b, e)
            == [StartEvent(call)] + (if e.Done? then [EndEvent(e.outcome)] else [])
  {
    if Prepare(tools, call, b).Prepared? {
      assert b.updates[..0] == [];
    }
  }

  lemma StepOwn(tools: seq<Tool>, call: ToolCall, b: Behaviour, e: Entry, act: Act)
    requires Possible(tools, call, b, e)
    ensures var (e', event) := StepEntry(call, b, e, act);
            && Possible(tools, call, b, e')
            && OwnEvents(tools, call, b, e')
            == OwnEvents(tools, call, b, e) + (if event.Some? then [event.value] else [])
  {
    if e.Running? {
      if e.reported < |b.updates| {
        var k := e.reported;
        assert UpdateEvents(call, b.updates[..k + 1])
            == UpdateEvents(call, b.updates[..k]) + [UpdateEvent(call, b.updates[k])];
      } else {
        assert b.updates[..e.reported] == b.updates;
      }
    }
  }

  /** Once a call has settled, its update callback changes nothing and emits nothing, whatever it is given. */
  lemma LateUpdatesIgnored(job: Job, schedule: seq<Choice>, i: nat, partial: string)
    requires job.Valid() && i < job.n && !Accepting(Execute(job, schedule).entries[i])
    ensures Execute(job, schedule + [Choice(i, Callback(partial))]) == Execute(job, schedule)
  {
    assert (schedule + [Choice(i, Callback(partial))])[..|schedule|] == schedule;
  }

  /** Events of one call at the end of a trace. */
  lemma ProjectExtended(trace: seq<Tagged>, own: seq<AgentEvent>, index: nat, i: nat)
    ensures Project(trace + TagAll(own, index), i) == Project(trace, i) + (if index == i then own else [])
  {
    ProjectAppend(trace, TagAll(own, index), i);
    ProjectUniform(own, index, i);
  }

  lemma {:induction false} ProjectInTurn(history: nat -> seq<AgentEvent>, k: nat, i: nat)
    ensures Project(InTurn(history, k), i) == if i < k then history(i) else []
  {
    if k > 0 {
      var j: nat := k - 1;
      var before := InTurn(history, j);
      ProjectInTurn(history, j, i);
      ProjectExtended(before, history(j), j, i);
      assert InTurn(history, k) == before + TagAll(history(j), j);
      if i == j {
        assert [] + history(j) == history(j);
      } else {
        assert Project(before, i) + [] == Project(before, i);
      }
    }
  }

  lemma LaunchConsistentAt(job: Job, i: nat)
    requires job.Valid()
    ensures ConsistentAt(job, Launch(job, job.n), i)
  {
    ProjectInTurn(LaunchHistory(job), job.n, i);
    if i < job.n {
      FirstEntryOwn(job.tools, job.calls[i], job.behave(i));
    }
  }

  lemma StepConsistentAt(job: Job, s: Batch, c: Choice, i: nat)
    requires job.Valid() && |s.entries| == job.n && ConsistentAt(job, s, i)
    ensures ConsistentAt(job, Step(job, s, c), i)
  {
    if c.index < job.n {
      var (_, event) := StepEntry(job.calls[c.index], job.behave(c.index), s.entries[c.index], c.act);
      if event.Some? {
        ProjectAppend(s.trace, [Tagged(c.index, event.value)], i);
        ProjectOne(Tagged(c.index, event.value), i);
      } else {
        assert s.trace + [] == s.trace;
      }
      if i == c.index {
        StepOwn(job.tools, job.calls[i], job.behave(i), s.entries[i], c.act);
      }
    }
  }

  /**
   * Bracketing at every reachable state of every schedule: each call has emitted exactly one start, then its
   * updates in order, then at most one end, and the end exactly when it is done.
   */
  lemma {:induction false} EveryScheduleConsistent(job: Job, schedule: seq<Choice>)
    requires job.Valid()
    ensures Consistent(job, Execute(job, schedule))
    decreases |schedule|
  {
    if schedule == [] {
      forall i: nat ensures ConsistentAt(job, Launch(job, job.n), i) {
        LaunchConsistentAt(job, i);
      }
    } else {
      var earlier := schedule[..|schedule| - 1];
      EveryScheduleConsistent(job, earlier);
      forall i: nat ensures ConsistentAt(job, Execute(job, schedule), i) {
        assert ConsistentAt(job, Execute(job, earlier), i);
        StepConsistentAt(job, Execute(job, earlier), schedule[|schedule| - 1], i);
      }
    }
  }

  /**
   * Parallel refines sequential: whatever the scheduler does, once every call is done the collected outcomes,
   * the terminate flag and each call's own event history are the sequential executor's.
   */
  lemma ParallelRefinesSequential(job: Job, schedule: seq<Choice>)
    requires job.Valid()
    requires Complete(Execute(job, schedule))
    ensures var s := Execute(job, schedule);
            && Collected(s) == Outcomes(job.tools, job.calls, job.behave, job.n)
            && ShouldTerminate(Collected(s)) == ShouldTerminate(Outcomes(job.tools, job.calls, job.behave, job.n))
            && forall i :: 0 <= i ==> Project(s.trace, i) == Project(SequentialTrace(job), i)
  {
    EveryScheduleConsistent(job, schedule);
    var s := Execute(job, schedule);
    forall i | 0 <= i
      ensures Project(s.trace, i) == Project(SequentialTrace(job), i)
    {
      assert ConsistentAt(job, s, i);
      ProjectInTurn(OwnHistories(job), job.n, i);
    }
    forall i: nat | i < job.n
      ensures s.entries[i].outcome == Outcome(job.tools, job.calls[i], job.behave(i))
    {
      assert ConsistentAt(job, s, i);
    }
    assert Collected(s) == Outcomes(job.tools, job.calls, job.behave, job.n);
  }

  /** What a call emits from start to end, from its behaviour alone. */
  ghost predicate HistoryTells(tools: seq<Tool>, call: ToolCall, b: Behaviour, h: seq<AgentEvent>) {
    var n := if GetsToRun(tools, call, b) then |b.updates| else 0;
    && |h| == n + 2
    && h[0] == ToolStart(call.id, call.name, call.arguments)
    && (forall k :: 0 <= k < n ==> h[k + 1] == ToolUpdate(call.id, call.name, call.arguments, b.updates[k]))
    && h[n + 1].ToolEnd? && h[n + 1].id == call.id && h[n + 1].name == call.name
    && Tells(tools, call, b, h[n + 1].output.content, h[n + 1].output.details)
    && (h[n + 1].isError <==> ReportsError(tools, call, b))
    && Wishes(tools, call, b, h[n + 1].output.terminate)
  }

  /** Whatever the scheduler does, once every call is done each has emitted what its behaviour says, and no more. */
  lemma EveryHistoryTells(job: Job, schedule: seq<Choice>, i: nat)
    requires job.Valid() && i < job.n && Complete(Execute(job, schedule))
    ensures HistoryTells(job.tools, job.calls[i], job.behave(i), Project(Execute(job, schedule).trace, i))
  {
    EveryScheduleConsistent(job, schedule);
    assert ConsistentAt(job, Execute(job, schedule), i);
    OwnHistoryTells(job, i);
  }

  lemma HistoryShape(call: ToolCall, updates: seq<string>, end: AgentEvent, h: seq<AgentEvent>)
    requires h == [StartEvent(call)] + (UpdateEvents(call, updates) + [end])
    ensures |h| == |updates| + 2 && h[|updates| + 1] == end
    ensures h[0] == ToolStart(call.id, call.name, call.arguments)
    ensures forall k :: 0 <= k < |updates| ==> h[k + 1] == ToolUpdate(call.id, call.name, call.arguments, updates[k])
  {
    forall k | 0 <= k < |updates|
      ensures h[k + 1] == ToolUpdate(call.id, call.name, call.arguments, updates[k])
    {
      assert h[k + 1] == UpdateEvents(call, updates)[k];
    }
  }

  lemma OwnHistoryTells(job: Job, i: nat)
    requires i < |job.calls|
    ensures HistoryTells(job.tools, job.calls[i], job.behave(i), OwnHistory(job, i))
  {
    var call, b := job.calls[i], job.behave(i);
    var f, updates := Outcome(job.tools, call, b), if Prepare(job.tools, call, b).Prepared? then b.updates else [];
    OutcomeTells(job.tools, call, b);
    HistoryShape(call, updates, EndEvent(f), OwnHistory(job, i));
  }

  /** How many moves an entry still needs. */
  function MovesLeft(b: Behaviour, e: Entry): nat
    requires e.Running? ==> e.reported <= |b.updates|
  {
    match e
    case Running(k) => |b.updates| - k + 2
    case Quiet => 1
    case Done(_) => 0
  }

  function TotalMovesLeft(behave: nat -> Behaviour, entries: seq<Entry>): nat
    requires forall i :: 0 <= i < |entries| && entries[i].Running? ==> entries[i].reported <= |behave(i).updates|
  {
    if entries == [] then 0
    else TotalMovesLeft(behave, entries[..|entries| - 1]) + MovesLeft(behave(|entries| - 1), entries[|entries| - 1])
  }

  /** Progress: every enabled move brings the batch one step nearer to completion. */
  lemma {:induction false} MoveMakesProgress(calls: seq<ToolCall>, behave: nat -> Behaviour, entries: seq<Entry>,
                                             i: nat)
    requires i < |entries| <= |calls|
    requires forall j :: 0 <= j < |entries| && entries[j].Running? ==> entries[j].reported <= |behave(j).updates|
    requires !entries[i].Done?
    ensures var entries' := entries[i := MoveEntry(calls[i], behave(i), entries[i]).0];
            && (forall j :: 0 <= j < |entries'| && entries'[j].Running? ==> entries'[j].reported <= |behave(j).updates|)
            && TotalMovesLeft(behave, entries') == TotalMovesLeft(behave, entries) - 1
    decreases |entries|
  {
    var entries' := entries[i := MoveEntry(calls[i], behave(i), entries[i]).0];
    var last := |entries| - 1;
    if i == last {
      assert entries'[..last] == entries[..last];
    } else {
      MoveMakesProgress(calls, behave, entries[..last], i);
      assert entries'[..last] == entries[..last][i := entries'[i]];
    }
  }
}
