/**
 * Messages, tool calls and events of the agent (packages/agent/src/types.ts).
 * Texts, arguments and payloads are only passed on, so numbers stand for them.
 */
module AgentTypes {
  import opened Base

  type CallId = nat

  datatype ToolCall = ToolCall(id: CallId, name: nat, arguments: nat)

  datatype Block = Text(text: nat) | Call(call: ToolCall)

  datatype StopReason = Stop | Length | ToolUse | Deferred | Error | Aborted

  datatype AssistantMessage = AssistantMessage(content: seq<Block>, stopReason: StopReason, errorMessage: Option<nat>)
  {
    predicate Failed() { stopReason == Error || stopReason == Aborted }

    function ToolCalls(): seq<ToolCall> { CallsIn(content) }
  }

  function CallsIn(content: seq<Block>): seq<ToolCall> {
    if content == [] then []
    else CallsIn(content[..|content|-1]) + (match content[|content|-1] case Call(c) => [c] case Text(_) => [])
  }

  /** The calls of a message are its call blocks, in order. */
  lemma {:induction false} CallsOfParts(a: seq<Block>, b: seq<Block>, c: ToolCall, text: nat)
    ensures CallsIn(a + b) == CallsIn(a) + CallsIn(b)
    ensures CallsIn([Call(c)]) == [c] && CallsIn([Text(text)]) == []
  {
    assert CallsIn([]) == [];
    if b == [] {
      assert a + b == a;
    } else {
      CallsOfParts(a, b[..|b|-1], c, text);
      assert (a + b)[..|a + b|-1] == a + b[..|b|-1];
    }
  }

  lemma {:induction false} CallsWanted(content: seq<Block>)
    ensures CallsIn(content) != [] <==> exists k :: 0 <= k < |content| && content[k].Call?
  {
    if content != [] {
      CallsWanted(content[..|content|-1]);
      if content[|content|-1].Call? { assert content[|content|-1].Call?; }
    }
  }

  /** The text of a tool result: what the tool produced, or one of the loop's own errors. */
  datatype Body =
    | Produced(content: nat)
    | NotFound(name: nat)
    | OperationAborted
    | Blocked(reason: Option<nat>)
    | Thrown(error: nat)
    | Truncated(name: nat)

  datatype ToolResult = ToolResult(content: Body, details: nat, usage: Option<nat>, terminate: Option<bool>)

  datatype ToolResultMessage = ToolResultMessage(toolCallId: CallId, toolName: nat, content: Body,
                                                 details: nat, usage: Option<nat>, isError: bool)

  datatype Message =
    | User(text: nat)
    | Custom(data: nat)
    | Assistant(assistant: AssistantMessage)
    | Result(result: ToolResultMessage)
  {
    predicate SameRole(other: Message) {
      || (User? && other.User?) || (Custom? && other.Custom?)
      || (Assistant? && other.Assistant?) || (Result? && other.Result?)
    }
  }

  function ResultMessages(results: seq<ToolResultMessage>): seq<Message>
  {
    seq(|results|, k requires 0 <= k < |results| => Result(results[k]))
  }

  function ResultIds(results: seq<ToolResultMessage>): seq<CallId>
  {
    seq(|results|, k requires 0 <= k < |results| => results[k].toolCallId)
  }

  datatype Event =
    | AgentStart
    | AgentEnd(messages: seq<Message>)
    | TurnStart
    | TurnEnd(message: AssistantMessage, toolResults: seq<ToolResultMessage>)
    | MessageStart(message_: Message)
    | MessageUpdate(message_: Message)
    | MessageEnd(message_: Message)
    | ToolStart(call: ToolCall)
    | ToolUpdate(call: ToolCall, partial: nat)
    | ToolEnd(toolCallId: CallId, toolName: nat, outcome: ToolResult, isError: bool)
}
