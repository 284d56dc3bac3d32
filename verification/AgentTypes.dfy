/** Messages, events and tool data shared by the agent loop and its stateful wrapper. */
module AgentTypes {
  import opened Common

  /** How an awaited callback of the embedding application ends. */
  datatype Settled<+T> = Returns(value: T) | Throws(message: string)

  datatype StopReason = Stop | Length | ToolUse | Error | Aborted

  datatype ToolCall = ToolCall(id: string, name: string, arguments: string)

  datatype Block = Text(text: string) | Thinking(thinking: string) | Call(call: ToolCall)

  datatype AssistantMessage =
    AssistantMessage(content: seq<Block>, stopReason: StopReason, errorMessage: Option<string>)
  {
    predicate Failed() {
      stopReason == Error || stopReason == Aborted
    }
  }

  datatype ToolResultMessage =
    ToolResultMessage(toolCallId: string, toolName: string, content: string, details: string, isError: bool)

  /** Custom messages are whatever roles an application adds to the transcript. */
  datatype Message =
    | User(content: string)
    | Assistant(assistant: AssistantMessage)
    | ToolResult(result: ToolResultMessage)
    | Custom(role: string, content: string)

  datatype ToolOutput = ToolOutput(content: string, details: string, terminate: Option<bool>)

  datatype AgentEvent =
    | AgentStart
    | AgentEnd(messages: seq<Message>)
    | TurnStart
    | TurnEnd(message: Message, toolResults: seq<ToolResultMessage>)
    | MessageStart(message: Message)
    | MessageUpdate(message: Message)
    | MessageEnd(message: Message)
    | ToolStart(id: string, name: string, arguments: string)
    | ToolUpdate(id: string, name: string, arguments: string, partial: string)
    | ToolEnd(id: string, name: string, output: ToolOutput, isError: bool)

  /** The tool calls of an assistant message, in source order. */
  function ToolCalls(content: seq<Block>): seq<ToolCall> {
    if content == [] then []
    else (if content[0].Call? then [content[0].call] else []) + ToolCalls(content[1..])
  }

  lemma {:induction false} ToolCallsAppend(a: seq<Block>, b: seq<Block>)
    ensures ToolCalls(a + b) == ToolCalls(a) + ToolCalls(b)
  {
    if a == [] {
      assert a + b == b;
    } else {
      ToolCallsAppend(a[1..], b);
      assert (a + b)[1..] == a[1..] + b;
    }
  }

  /** Every block of a message is looked at, and the calls among them are taken in their order. */
  lemma CallsInSourceOrder(before: seq<Block>, block: Block, after: seq<Block>)
    ensures ToolCalls(before + [block] + after)
         == ToolCalls(before) + (if block.Call? then [block.call] else []) + ToolCalls(after)
  {
    ToolCallsAppend(before, [block]);
    ToolCallsAppend(before + [block], after);
    assert [block][1..] == [];
  }
}
