/** What one tool call comes to: preparation, execution, and the hooks around them. */
module ToolOutcome {
  import opened Common
  import opened AgentTypes

  datatype Tool = Tool(name: string, sequential: bool)

  /** What `beforeToolCall` does, when there is one. */
  datatype Before = NoBefore | Proceed | Block(reason: Option<string>) | BeforeThrows(message: string)

  /** What `afterToolCall` does, when there is one. */
  datatype After =
    | NoAfter
    | Keep
    | Override(content: Option<string>, details: Option<string>, terminate: Option<bool>, isError: Option<bool>)
    | AfterThrows(message: string)

  /** Everything the application decides about one call. `aborted...` are the readings of the abort signal. */
  datatype Behaviour = Behaviour(
    arguments: Settled<string>,
    before: Before,
    abortedInPrepare: bool,
    updates: seq<string>,
    execution: Settled<ToolOutput>,
    after: After,
    abortedAfter: bool)

  datatype Preparation = Immediate(output: ToolOutput) | Prepared

  datatype Finalized = Finalized(call: ToolCall, output: ToolOutput, isError: bool)

  function FindTool(tools: seq<Tool>, name: string): (r: Option<Tool>)
    ensures r.Some? ==> r.value in tools && r.value.name == name
    ensures r.None? <==> forall t :: t in tools ==> t.name != name
  {
    if tools == [] then None
    else if tools[0].name == name then Some(tools[0])
    else FindTool(tools[1..], name)
  }

  /** The tool found is the first one of its name. */
  lemma {:induction false} FirstOfItsName(tools: seq<Tool>, i: nat)
    requires i < |tools| && forall j :: 0 <= j < i ==> tools[j].name != tools[i].name
    ensures FindTool(tools, tools[i].name) == Some(tools[i])
  {
    if i > 0 {
      FirstOfItsName(tools[1..], i - 1);
    }
  }

  /** The tool a call names, the first of its name, asks to run alone. */
  ghost predicate AsksToRunAlone(tools: seq<Tool>, call: ToolCall) {
    exists i :: 0 <= i < |tools| && tools[i].name == call.name && tools[i].sequential
                && forall j :: 0 <= j < i ==> tools[j].name != call.name
  }

  lemma {:induction false} AsksToRunAloneIs(tools: seq<Tool>, call: ToolCall)
    ensures AsksToRunAlone(tools, call)
       <==> FindTool(tools, call.name).Some? && FindTool(tools, call.name).value.sequential
  {
    if FindTool(tools, call.name).Some? {
      var i := FirstIndex(tools, call.name);
      FirstOfItsName(tools, i);
      if tools[i].sequential {
        assert AsksToRunAlone(tools, call);
      }
    }
  }

  lemma {:induction false} FirstIndex(tools: seq<Tool>, name: string) returns (i: nat)
    requires FindTool(tools, name).Some?
    ensures i < |tools| && tools[i].name == name && forall j :: 0 <= j < i ==> tools[j].name != name
  {
    if tools[0].name == name {
      i := 0;
    } else {
      i := FirstIndex(tools[1..], name);
      i := i + 1;
    }
  }

  function ErrorOutput(message: string): ToolOutput {
    ToolOutput(message, "{}", None)
  }

  const ABORTED_TEXT := "Operation aborted"
  const BLOCKED_TEXT := "Tool execution was blocked"

  /** An immediate outcome is always an error; every throw on the way is turned into one. */
  function Prepare(tools: seq<Tool>, call: ToolCall, b: Behaviour): Preparation {
    if FindTool(tools, call.name).None? then Immediate(ErrorOutput("Tool " + call.name + " not found"))
    else if b.arguments.Throws? then Immediate(ErrorOutput(b.arguments.message))
    else if b.before.BeforeThrows? then Immediate(ErrorOutput(b.before.message))
    else if b.abortedInPrepare then Immediate(ErrorOutput(ABORTED_TEXT))
    else if b.before.Block? then
      Immediate(ErrorOutput(if b.before.reason.Some? && b.before.reason.value != "" then b.before.reason.value
                            else BLOCKED_TEXT))
    else Prepared
  }

  function Finalize(call: ToolCall, b: Behaviour): Finalized {
    var output := if b.execution.Returns? then b.execution.value else ErrorOutput(b.execution.message);
    var isError := b.execution.Throws?;
    match b.after
    case NoAfter => Finalized(call, output, isError)
    case Keep => Finalized(call, output, isError)
    case AfterThrows(message) => Finalized(call, ErrorOutput(message), true)
    case Override(content, details, terminate, overrideError) =>
      Finalized(call,
                ToolOutput(
                  if content.Some? then content.value else output.content,
                  if details.Some? then details.value else output.details,
                  if terminate.Some? then terminate else output.terminate),
                if overrideError.Some? then overrideError.value else isError)
  }

  /** The finalized outcome of a call, whichever executor runs it. */
  function Outcome(tools: seq<Tool>, call: ToolCall, b: Behaviour): Finalized {
    match Prepare(tools, call, b)
    case Immediate(output) => Finalized(call, output, true)
    case Prepared => Finalize(call, b)
  }

  function ResultMessage(f: Finalized): ToolResultMessage {
    ToolResultMessage(f.call.id, f.call.name, f.output.content, f.output.details, f.isError)
  }

  function ResultMessages(fs: seq<Finalized>): (r: seq<ToolResultMessage>)
    ensures |r| == |fs|
    ensures forall i :: 0 <= i < |fs| ==> r[i] == ResultMessage(fs[i])
  {
    seq(|fs|, i requires 0 <= i < |fs| => ResultMessage(fs[i]))
  }

  predicate WantsTermination(f: Finalized) {
    f.output.terminate == Some(true)
  }

  predicate ShouldTerminate(fs: seq<Finalized>) {
    |fs| > 0 && forall i :: 0 <= i < |fs| ==> WantsTermination(fs[i])
  }

  /** How many calls a batch handles: the loop stops after the first call that leaves the signal aborted. */
  function Handled(n: nat, behave: nat -> Behaviour, from: nat := 0): (r: nat)
    requires from <= n
    ensures from <= r <= n
    ensures from < n ==> from < r
    ensures forall i :: from <= i < r - 1 ==> !behave(i).abortedAfter
    ensures r < n ==> from < r && behave(r - 1).abortedAfter
    decreases n - from
  {
    if from == n then from
    else if behave(from).abortedAfter then from + 1
    else Handled(n, behave, from + 1)
  }

  function Outcomes(tools: seq<Tool>, calls: seq<ToolCall>, behave: nat -> Behaviour, n: nat): (r: seq<Finalized>)
    requires n <= |calls|
    ensures |r| == n
    ensures forall i :: 0 <= i < n ==> r[i] == Outcome(tools, calls[i], behave(i))
  {
    seq(n, i requires 0 <= i < n => Outcome(tools, calls[i], behave(i)))
  }

  /** A call that does not run, or whose execution or after-hook throws, with no hook asking to terminate for it. */
  predicate FailsUnasked(tools: seq<Tool>, call: ToolCall, b: Behaviour) {
    || FindTool(tools, call.name).None? || b.arguments.Throws?
    || b.before.BeforeThrows? || b.before.Block? || b.abortedInPrepare
    || b.after.AfterThrows?
    || (b.execution.Throws? && !(b.after.Override? && b.after.terminate == Some(true)))
  }

  /** One failed call is enough to give the model another turn, whatever the other calls of the batch ask for. */
  lemma FailureNeverTerminates(tools: seq<Tool>, calls: seq<ToolCall>, behave: nat -> Behaviour, n: nat, i: nat)
    requires i < n <= |calls| && FailsUnasked(tools, calls[i], behave(i))
    ensures !ShouldTerminate(Outcomes(tools, calls, behave, n))
  {
    assert !WantsTermination(Outcomes(tools, calls, behave, n)[i]);
  }

  // ----- What a call is seen to come to, from the behaviour of tool and hooks alone -----

  /** The call gets through preparation. */
  ghost predicate GetsToRun(tools: seq<Tool>, call: ToolCall, b: Behaviour) {
    && (exists t :: t in tools && t.name == call.name)
    && b.arguments.Returns? && !b.before.BeforeThrows? && !b.abortedInPrepare && !b.before.Block?
  }

  /** Why a call does not get through preparation; the first reason counts. */
  ghost predicate Refuses(tools: seq<Tool>, call: ToolCall, b: Behaviour, text: string) {
    if !exists t :: t in tools && t.name == call.name then text == "Tool " + call.name + " not found"
    else if b.arguments.Throws? then text == b.arguments.message
    else if b.before.BeforeThrows? then text == b.before.message
    else if b.abortedInPrepare then text == "Operation aborted"
    else
      && b.before.Block?
      && text == (if b.before.reason.Some? && |b.before.reason.value| > 0 then b.before.reason.value
                  else "Tool execution was blocked")
  }

  /** The outcome is an error: the call was refused, or a hook or the tool threw and no hook says otherwise. */
  ghost predicate ReportsError(tools: seq<Tool>, call: ToolCall, b: Behaviour) {
    || !GetsToRun(tools, call, b)
    || b.after.AfterThrows?
    || (b.after.Override? && b.after.isError == Some(true))
    || (b.execution.Throws? && (b.after.Override? ==> b.after.isError.None?))
  }

  /** Content and details: the refusal, or what was thrown, or the tool's own, unless the hook overrides the field. */
  ghost predicate Tells(tools: seq<Tool>, call: ToolCall, b: Behaviour, content: string, details: string) {
    if !GetsToRun(tools, call, b) then Refuses(tools, call, b, content) && details == "{}"
    else if b.after.AfterThrows? then content == b.after.message && details == "{}"
    else
      && (b.after.Override? && b.after.content.Some? ==> content == b.after.content.value)
      && (b.after.Override? && b.after.details.Some? ==> details == b.after.details.value)
      && (!(b.after.Override? && b.after.content.Some?) ==>
           content == if b.execution.Throws? then b.execution.message else b.execution.value.content)
      && (!(b.after.Override? && b.after.details.Some?) ==>
           details == if b.execution.Throws? then "{}" else b.execution.value.details)
  }

  /** What the call says about stopping: what its hook says, or what the tool does if its hook leaves that alone. */
  ghost predicate Wishes(tools: seq<Tool>, call: ToolCall, b: Behaviour, terminate: Option<bool>) {
    if !GetsToRun(tools, call, b) || b.after.AfterThrows? then terminate.None?
    else if b.after.Override? && b.after.terminate.Some? then terminate == b.after.terminate
    else if b.execution.Returns? then terminate == b.execution.value.terminate
    else terminate.None?
  }

  ghost predicate AsksToStop(tools: seq<Tool>, call: ToolCall, b: Behaviour) {
    Wishes(tools, call, b, Some(true))
  }

  lemma OutcomeTells(tools: seq<Tool>, call: ToolCall, b: Behaviour)
    ensures var f := Outcome(tools, call, b);
            && f.call == call && (Prepare(tools, call, b).Prepared? <==> GetsToRun(tools, call, b))
            && Tells(tools, call, b, f.output.content, f.output.details)
            && (f.isError <==> ReportsError(tools, call, b))
            && Wishes(tools, call, b, f.output.terminate)
            && (WantsTermination(f) <==> AsksToStop(tools, call, b))
  {
    var found := FindTool(tools, call.name);
    assert found.Some? ==> found.value in tools && found.value.name == call.name;
  }

  ghost predicate MessageTells(tools: seq<Tool>, call: ToolCall, b: Behaviour, r: ToolResultMessage) {
    && r.toolCallId == call.id && r.toolName == call.name
    && Tells(tools, call, b, r.content, r.details)
    && (r.isError <==> ReportsError(tools, call, b))
  }

  /**
   * A batch ends with its calls, or behind the first that leaves the signal aborted; it is empty only without calls.
   */
  ghost predicate HandlesFirst(calls: seq<ToolCall>, behave: nat -> Behaviour, n: nat) {
    && n <= |calls| && (calls != [] ==> n > 0)
    && (forall i :: 0 <= i < n - 1 ==> !behave(i).abortedAfter)
    && (n < |calls| ==> n > 0 && behave(n - 1).abortedAfter)
  }

  /** The calls and the readings of the signal say how many calls are handled. */
  lemma OneHandledCount(calls: seq<ToolCall>, behave: nat -> Behaviour, n: nat, n': nat)
    requires HandlesFirst(calls, behave, n) && HandlesFirst(calls, behave, n')
    ensures n == n'
  {
  }

  ghost predicate AllTell(tools: seq<Tool>, calls: seq<ToolCall>, behave: nat -> Behaviour,
                          messages: seq<ToolResultMessage>)
  {
    && |messages| <= |calls|
    && forall i :: 0 <= i < |messages| ==> MessageTells(tools, calls[i], behave(i), messages[i])
  }

  ghost predicate AllAsk(tools: seq<Tool>, calls: seq<ToolCall>, behave: nat -> Behaviour, n: nat) {
    0 < n <= |calls| && forall i :: 0 <= i < n ==> AsksToStop(tools, calls[i], behave(i))
  }

  /** The results of a batch, and whether it stops the run: it does when every handled call asks for it. */
  ghost predicate BatchTells(tools: seq<Tool>, calls: seq<ToolCall>, behave: nat -> Behaviour,
                             messages: seq<ToolResultMessage>, terminate: bool)
  {
    && HandlesFirst(calls, behave, |messages|)
    && AllTell(tools, calls, behave, messages)
    && (terminate <==> AllAsk(tools, calls, behave, |messages|))
  }

  lemma MessageOfOutcomeTells(tools: seq<Tool>, call: ToolCall, b: Behaviour)
    ensures MessageTells(tools, call, b, ResultMessage(Outcome(tools, call, b)))
  {
    OutcomeTells(tools, call, b);
  }

  lemma StopsWhenAllAsk(tools: seq<Tool>, calls: seq<ToolCall>, behave: nat -> Behaviour, n: nat)
    requires n <= |calls|
    ensures ShouldTerminate(Outcomes(tools, calls, behave, n)) <==> AllAsk(tools, calls, behave, n)
  {
    var fs := Outcomes(tools, calls, behave, n);
    forall i | 0 <= i < n ensures WantsTermination(fs[i]) <==> AsksToStop(tools, calls[i], behave(i)) {
      OutcomeTells(tools, calls[i], behave(i));
    }
  }

  lemma OutcomesAllTell(tools: seq<Tool>, calls: seq<ToolCall>, behave: nat -> Behaviour, n: nat)
    requires n <= |calls|
    ensures AllTell(tools, calls, behave, ResultMessages(Outcomes(tools, calls, behave, n)))
  {
    var messages := ResultMessages(Outcomes(tools, calls, behave, n));
    forall i | 0 <= i < n ensures MessageTells(tools, calls[i], behave(i), messages[i]) {
      MessageOfOutcomeTells(tools, calls[i], behave(i));
    }
  }

  lemma OutcomesTell(tools: seq<Tool>, calls: seq<ToolCall>, behave: nat -> Behaviour)
    ensures var fs := Outcomes(tools, calls, behave, Handled(|calls|, behave));
            BatchTells(tools, calls, behave, ResultMessages(fs), ShouldTerminate(fs))
  {
    var n := Handled(|calls|, behave);
    OutcomesAllTell(tools, calls, behave, n);
    StopsWhenAllAsk(tools, calls, behave, n);
  }
}
