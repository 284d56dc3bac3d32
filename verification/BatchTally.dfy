/** How the entries of a running batch show in the protocol's tally of a reply's tool calls. */
module BatchTally {
  import opened Common
  import opened AgentTypes
  import opened ToolOutcome
  import opened ToolSchedule
  import opened Protocol

  /** The sum of a row of multisets. */
  function Total<T>(parts: seq<multiset<T>>): multiset<T> {
    if parts == [] then multiset{} else Total(parts[..|parts| - 1]) + parts[|parts| - 1]
  }

  lemma {:induction false} TotalAppend<T>(parts: seq<multiset<T>>, p: multiset<T>)
    ensures Total(parts + [p]) == Total(parts) + p
  {
    assert (parts + [p])[..|parts|] == parts;
  }

  lemma Exchange<T>(a: multiset<T>, b: multiset<T>, x: multiset<T>, y: multiset<T>, d: multiset<T>)
    requires a + x == b + y
    ensures (a + d) + x == (b + d) + y
  {
    assert (a + d) + x == (a + x) + d;
    assert (b + d) + y == (b + y) + d;
  }

  lemma {:induction false} TotalReplace<T>(parts: seq<multiset<T>>, i: nat, p: multiset<T>)
    requires i < |parts|
    ensures Total(parts) + p == Total(parts[i := p]) + parts[i]
    decreases |parts|
  {
    var last := |parts| - 1;
    var parts' := parts[i := p];
    if i == last {
      assert parts'[..last] == parts[..last];
      assert (Total(parts[..last]) + parts[last]) + p == (Total(parts[..last]) + p) + parts[last];
    } else {
      TotalReplace(parts[..last], i, p);
      assert parts'[..last] == parts[..last][i := p];
      Exchange(Total(parts[..last]), Total(parts'[..last]), p, parts[i], parts[last]);
    }
  }

  function RunningPart(call: ToolCall, e: Entry): multiset<string> {
    if e.Done? then multiset{} else multiset{call.id}
  }

  function DonePart(e: Entry): multiset<ToolResultMessage> {
    if e.Done? then multiset{ResultMessage(e.outcome)} else multiset{}
  }

  function RunningParts(calls: seq<ToolCall>, entries: seq<Entry>): (r: seq<multiset<string>>)
    requires |entries| <= |calls|
    ensures |r| == |entries| && forall i :: 0 <= i < |r| ==> r[i] == RunningPart(calls[i], entries[i])
  {
    seq(|entries|, i requires 0 <= i < |entries| => RunningPart(calls[i], entries[i]))
  }

  function DoneParts(entries: seq<Entry>): (r: seq<multiset<ToolResultMessage>>)
    ensures |r| == |entries| && forall i :: 0 <= i < |r| ==> r[i] == DonePart(entries[i])
  {
    seq(|entries|, i requires 0 <= i < |entries| => DonePart(entries[i]))
  }

  function StillRunning(calls: seq<ToolCall>, entries: seq<Entry>): multiset<string>
    requires |entries| <= |calls|
  {
    Total(RunningParts(calls, entries))
  }

  function FinishedResults(entries: seq<Entry>): multiset<ToolResultMessage> {
    Total(DoneParts(entries))
  }

  predicate AnyContinuing(entries: seq<Entry>) {
    exists i :: 0 <= i < |entries| && entries[i].Done? && !WantsTermination(entries[i].outcome)
  }

  function TallyOf(calls: seq<ToolCall>, entries: seq<Entry>, aborted: bool): Tally
    requires |entries| <= |calls|
  {
    Tally(|entries|, StillRunning(calls, entries), FinishedResults(entries), [], None, AnyContinuing(entries), aborted)
  }

  lemma NothingAdded<T>(a: multiset<T>)
    ensures a + multiset{} == a
  {
  }

  lemma AppendRunning(calls: seq<ToolCall>, entries: seq<Entry>, e: Entry)
    requires |entries| < |calls|
    ensures StillRunning(calls, entries + [e])
         == if e.Done? then StillRunning(calls, entries)
            else StillRunning(calls, entries) + multiset{calls[|entries|].id}
  {
    var parts, part := RunningParts(calls, entries), RunningPart(calls[|entries|], e);
    assert RunningParts(calls, entries + [e]) == parts + [part];
    TotalAppend(parts, part);
    NothingAdded(Total(parts));
  }

  lemma AppendFinished(entries: seq<Entry>, e: Entry)
    ensures FinishedResults(entries + [e])
         == if e.Done? then FinishedResults(entries) + multiset{ResultMessage(e.outcome)} else FinishedResults(entries)
  {
    var parts := DoneParts(entries);
    assert DoneParts(entries + [e]) == parts + [DonePart(e)];
    TotalAppend(parts, DonePart(e));
    NothingAdded(Total(parts));
  }

  lemma AppendContinuing(entries: seq<Entry>, e: Entry)
    ensures AnyContinuing(entries + [e])
         <==> AnyContinuing(entries) || (e.Done? && !WantsTermination(e.outcome))
  {
    if AnyContinuing(entries) {
      var i :| 0 <= i < |entries| && entries[i].Done? && !WantsTermination(entries[i].outcome);
      assert (entries + [e])[i] == entries[i];
    }
    assert (entries + [e])[|entries|] == e;
  }

  lemma TakeBack<T>(a: multiset<T>, b: multiset<T>, x: T)
    requires a == b + multiset{x}
    ensures x in a && a - multiset{x} == b
  {
  }

  /** Emptying the part that holds `x` takes it out of the sum. */
  lemma TotalWithout<T>(parts: seq<multiset<T>>, i: nat, x: T)
    requires i < |parts| && parts[i] == multiset{x}
    ensures Total(parts) == Total(parts[i := multiset{}]) + multiset{x} && x in Total(parts)
  {
    TotalReplace(parts, i, multiset{});
    NothingAdded(Total(parts));
  }

  /** Filling an empty part with `x` adds it to the sum. */
  lemma TotalWith<T>(parts: seq<multiset<T>>, i: nat, x: T)
    requires i < |parts| && parts[i] == multiset{}
    ensures Total(parts[i := multiset{x}]) == Total(parts) + multiset{x}
  {
    TotalReplace(parts, i, multiset{x});
    NothingAdded(Total(parts[i := multiset{x}]));
  }

  lemma ReplaceRunningPart(calls: seq<ToolCall>, entries: seq<Entry>, i: nat, e: Entry)
    requires i < |entries| <= |calls|
    ensures RunningParts(calls, entries[i := e]) == RunningParts(calls, entries)[i := RunningPart(calls[i], e)]
  {
  }

  lemma ReplaceDonePart(entries: seq<Entry>, i: nat, e: Entry)
    requires i < |entries|
    ensures DoneParts(entries[i := e]) == DoneParts(entries)[i := DonePart(e)]
  {
  }

  /** Replacing an unfinished entry takes its call out of the running ones exactly when the new entry is done. */
  lemma ReplaceRunning(calls: seq<ToolCall>, entries: seq<Entry>, i: nat, e: Entry)
    requires i < |entries| <= |calls| && !entries[i].Done?
    ensures calls[i].id in StillRunning(calls, entries)
    ensures if e.Done?
            then StillRunning(calls, entries) == StillRunning(calls, entries[i := e]) + multiset{calls[i].id}
            else StillRunning(calls, entries[i := e]) == StillRunning(calls, entries)
  {
    var parts := RunningParts(calls, entries);
    ReplaceRunningPart(calls, entries, i, e);
    TotalWithout(parts, i, calls[i].id);
    if !e.Done? {
      assert parts[i := parts[i]] == parts;
    }
  }

  lemma ReplaceFinished(entries: seq<Entry>, i: nat, e: Entry)
    requires i < |entries| && !entries[i].Done?
    ensures FinishedResults(entries[i := e])
         == if e.Done? then FinishedResults(entries) + multiset{ResultMessage(e.outcome)} else FinishedResults(entries)
  {
    var parts := DoneParts(entries);
    ReplaceDonePart(entries, i, e);
    if e.Done? {
      TotalWith(parts, i, ResultMessage(e.outcome));
    } else {
      assert parts[i := parts[i]] == parts;
    }
  }

  lemma ReplaceContinuing(entries: seq<Entry>, i: nat, e: Entry)
    requires i < |entries| && !entries[i].Done?
    ensures AnyContinuing(entries[i := e])
         <==> AnyContinuing(entries) || (e.Done? && !WantsTermination(e.outcome))
  {
    var entries' := entries[i := e];
    if AnyContinuing(entries) {
      var j :| 0 <= j < |entries| && entries[j].Done? && !WantsTermination(entries[j].outcome);
      assert entries'[j] == entries[j];
    }
    assert entries'[i] == e;
  }

  /** What preparing a call does to the tally. */
  ghost predicate LaunchEffect(t: Tally, call: ToolCall, e: Entry, t': Tally) {
    if e.Done? then
      t' == t.(started := t.started + 1, finished := t.finished + multiset{ResultMessage(e.outcome)},
               continuing := t.continuing || !WantsTermination(e.outcome))
    else t' == t.(started := t.started + 1, running := t.running + multiset{call.id})
  }

  lemma LaunchTally(calls: seq<ToolCall>, entries: seq<Entry>, e: Entry)
    requires |entries| < |calls|
    ensures LaunchEffect(TallyOf(calls, entries, false), calls[|entries|], e, TallyOf(calls, entries + [e], false))
  {
    AppendRunning(calls, entries, e);
    AppendFinished(entries, e);
    AppendContinuing(entries, e);
  }

  /** What replacing an unfinished entry by `e` does to the tally. */
  ghost predicate MoveEffect(t: Tally, call: ToolCall, e: Entry, t': Tally) {
    && call.id in t.running
    && if e.Done? then
         && t.running == t'.running + multiset{call.id}
         && t' == t.(running := t'.running, finished := t.finished + multiset{ResultMessage(e.outcome)},
                     continuing := t.continuing || !WantsTermination(e.outcome))
       else t' == t
  }

  lemma MoveTally(calls: seq<ToolCall>, entries: seq<Entry>, i: nat, e: Entry, aborted: bool)
    requires i < |entries| <= |calls| && !entries[i].Done?
    ensures MoveEffect(TallyOf(calls, entries, aborted), calls[i], e, TallyOf(calls, entries[i := e], aborted))
  {
    ReplaceRunning(calls, entries, i, e);
    ReplaceFinished(entries, i, e);
    ReplaceContinuing(entries, i, e);
  }

  /** In a complete batch nothing runs, and the finished results are the collected ones. */
  lemma {:induction false} CompleteTally(calls: seq<ToolCall>, s: Batch)
    requires |s.entries| <= |calls| && Complete(s)
    ensures StillRunning(calls, s.entries) == multiset{}
    ensures FinishedResults(s.entries) == multiset(ResultMessages(Collected(s)))
    decreases |s.entries|
  {
    if s.entries != [] {
      var last := |s.entries| - 1;
      var front := Batch(s.entries[..last], s.trace);
      CompleteTally(calls, front);
      assert s.entries == front.entries + [s.entries[last]];
      AppendRunning(calls, front.entries, s.entries[last]);
      AppendFinished(front.entries, s.entries[last]);
      assert ResultMessages(Collected(s))
          == ResultMessages(Collected(front)) + [ResultMessage(s.entries[last].outcome)];
    }
  }

  /** The tool results of a turn as they enter the transcript. */
  function ToolDeliveries(results: seq<ToolResultMessage>): (r: seq<Delivery>)
    ensures |r| == |results|
    ensures forall i :: 0 <= i < |r| ==> r[i] == Delivery(ToolRun, ToolResult(results[i]))
  {
    seq(|results|, i requires 0 <= i < |results| => Delivery(ToolRun, ToolResult(results[i])))
  }

  /** The tool events of a log, in order. */
  function ToolTraffic(log: seq<Action>): seq<AgentEvent> {
    if log == [] then []
    else
      var a := log[|log| - 1];
      ToolTraffic(log[..|log| - 1])
      + (if a.Emit? && (a.event.ToolStart? || a.event.ToolUpdate? || a.event.ToolEnd?) then [a.event] else [])
  }

  lemma {:induction false} ToolTrafficAppend(log: seq<Action>, a: Action)
    ensures ToolTraffic(log + [a])
         == ToolTraffic(log)
            + (if a.Emit? && (a.event.ToolStart? || a.event.ToolUpdate? || a.event.ToolEnd?) then [a.event] else [])
  {
    assert (log + [a])[..|log|] == log;
  }

  function Untagged(trace: seq<Tagged>): (r: seq<AgentEvent>)
    ensures |r| == |trace|
    ensures forall i :: 0 <= i < |r| ==> r[i] == trace[i].event
  {
    seq(|trace|, i requires 0 <= i < |trace| => trace[i].event)
  }
}
