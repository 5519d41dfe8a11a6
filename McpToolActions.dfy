/**
 * Running an MCP tool call from the renderer
 * (packages/electron/src/renderer/src/store/messages/mcpToolActions.ts): the
 * tool's execute state is moved to `executing` and then `completed` in the
 * stored message, the call's response is normalised into a `ToolResult`, and
 * the caller learns whether every tool call of the message has completed.
 *
 * The message database and the renderer's message list are one map from id to
 * message; `updateMessageAction` writes a message under its id. The streaming
 * conversation ids are a set. The IPC call to the main process is a parameter:
 * its response, or the message of the error it throws.
 */
module McpToolActions {
  import opened Wrappers
  import opened ChatTypes

  const MessageNotFound: string := "message not found"
  const MessageHasNoMcpTool: string := "message not has mcpTool"
  const McpToolNotFound: string := "mcp tool not found"
  /** The TypeError raised by reading `content[0].text` of an empty content list. */
  const NoFirstContent: string := "Cannot read properties of undefined (reading 'text')"
  /** The TypeError raised by writing `.result` on `mcpTool[-1]`, which is undefined. */
  const NoToolAtIndex: string := "Cannot set properties of undefined (setting 'result')"

  /** `McpToolCallResponse`: the error flag and the text of each content part. */
  datatype ToolCallResponse = ToolCallResponse(isError: Option<bool>, content: seq<string>)

  /** JavaScript truthiness of the optional `isError` flag. */
  predicate IsErrorFlag(isError: Option<bool>) {
    isError == Some(true)
  }

  /**
   * `createMcpToolCallResponse`: success is the negated flag, and the first
   * part's text goes to `error` or to `data`, the other left empty. An empty
   * content list makes the read of `content[0].text` throw.
   */
  function CreateMcpToolCallResponse(response: ToolCallResponse): (r: Result<ToolResult, string>)
    ensures r.Err? <==> response.content == []
    ensures r.Err? ==> r.error == NoFirstContent
    ensures r.Ok? ==> r.value.success == !IsErrorFlag(response.isError)
    ensures r.Ok? ==> ResultText(r.value) == response.content[0]
    ensures r.Ok? ==> (if r.value.success then r.value.error == "" else r.value.data == "")
  {
    if response.content == [] then Err(NoFirstContent)
    else if IsErrorFlag(response.isError) then Ok(ToolResult(false, "", response.content[0]))
    else Ok(ToolResult(true, response.content[0], ""))
  }

  /** The text a result carries: its data on success, its error otherwise. */
  function ResultText(r: ToolResult): string {
    if r.success then r.data else r.error
  }

  /** A result as `createMcpToolCallResponse` can build it: the unused side is empty. */
  predicate WellFormed(r: ToolResult) {
    if r.success then r.error == "" else r.data == ""
  }

  /** The single-part response that describes a result. */
  function ResponseFor(r: ToolResult): ToolCallResponse {
    ToolCallResponse(Some(!r.success), [ResultText(r)])
  }

  /** The response substituted when the tool call throws: flagged, with the error's message as its one part. */
  function Thrown(message: string): ToolCallResponse {
    ToolCallResponse(Some(true), [message])
  }

  /** The response handled: the call's own, or the substitute for the error it threw. */
  function ResponseOf(outcome: Result<ToolCallResponse, string>): ToolCallResponse {
    if outcome.Ok? then outcome.value else Thrown(outcome.error)
  }

  /** Every well-formed result is rebuilt exactly from the response that describes it. */
  lemma CreateResponseRoundTrip(r: ToolResult)
    requires WellFormed(r)
    ensures CreateMcpToolCallResponse(ResponseFor(r)) == Ok(r)
  {
  }

  /** Only the first content part matters. */
  lemma CreateResponseReadsFirstPart(response: ToolCallResponse, more: seq<string>)
    requires response.content != []
    ensures CreateMcpToolCallResponse(response.(content := response.content + more)) == CreateMcpToolCallResponse(response)
  {
  }

  /** A thrown tool-call error becomes a failed result holding the error's message. */
  lemma ThrownBecomesFailure(message: string)
    ensures CreateMcpToolCallResponse(Thrown(message)) == Ok(ToolResult(false, "", message))
  {
  }

  /** `findIndex` on the tool id: the first match, or -1. */
  function ToolIndex(calls: seq<McpToolCall>, id: string): (r: int)
    ensures -1 <= r < |calls|
    ensures r >= 0 ==> calls[r].id == id
    ensures forall j :: 0 <= j < |calls| && (r < 0 || j < r) ==> calls[j].id != id
  {
    if calls == [] then -1
    else if calls[0].id == id then 0
    else
      var k := ToolIndex(calls[1..], id);
      if k < 0 then -1 else k + 1
  }

  predicate HasTool(m: Message, toolId: string) {
    m.mcpTool.Some? && ToolIndex(m.mcpTool.value, toolId) >= 0
  }

  /** The message with the execute state of its first tool call with id `toolId` set to `state`. */
  function WithToolState(m: Message, toolId: string, state: ExecuteState): Message
    requires HasTool(m, toolId)
  {
    var calls := m.mcpTool.value;
    var i := ToolIndex(calls, toolId);
    m.(mcpTool := Some(calls[i := calls[i].(executeState := state)]))
  }

  /**
   * The clone written back after the call: the result stored on the tool found by
   * id. When the id is not found the index is -1, and the write throws instead
   * (`NoToolAtIndex`).
   */
  function WithToolResult(m: Message, toolId: string, result: ToolResult): Message
    requires HasTool(m, toolId)
  {
    var calls := m.mcpTool.value;
    var i := ToolIndex(calls, toolId);
    m.(mcpTool := Some(calls[i := calls[i].(result := Some(result))]))
  }

  /** `every(item => item.executeState === 'completed')`. */
  function AllCompleted(calls: seq<McpToolCall>): (r: bool)
    ensures r <==> forall i :: 0 <= i < |calls| ==> calls[i].executeState == Completed
  {
    if calls == [] then true else calls[0].executeState == Completed && AllCompleted(calls[1..])
  }

  /** Setting the execute state touches that one field of that one tool call and nothing else. */
  lemma WithToolStateOnlyTarget(m: Message, toolId: string, state: ExecuteState)
    requires HasTool(m, toolId)
    ensures var m' := WithToolState(m, toolId, state); var i := ToolIndex(m.mcpTool.value, toolId);
      m'.mcpTool.Some? && |m'.mcpTool.value| == |m.mcpTool.value| &&
      m'.(mcpTool := m.mcpTool) == m &&
      m'.mcpTool.value[i].executeState == state &&
      m'.mcpTool.value[i].(executeState := m.mcpTool.value[i].executeState) == m.mcpTool.value[i] &&
      forall j :: 0 <= j < |m.mcpTool.value| && j != i ==> m'.mcpTool.value[j] == m.mcpTool.value[j]
  {
  }

  /** What `setMcpToolCallexecuteState` writes, or the error it throws. */
  function SetStateOutcome(messages: map<string, Message>, id: string, toolId: string, state: ExecuteState): Result<Message, string> {
    if id !in messages then Err(MessageNotFound)
    else if messages[id].mcpTool.None? then Err(MessageHasNoMcpTool)
    else if ToolIndex(messages[id].mcpTool.value, toolId) < 0 then Err(McpToolNotFound)
    else Ok(WithToolState(messages[id], toolId, state))
  }

  /** The three error cases of `setMcpToolCallexecuteState`, in the order it checks them. */
  lemma SetStateErrors(messages: map<string, Message>, id: string, toolId: string, state: ExecuteState)
    ensures SetStateOutcome(messages, id, toolId, state) == Err(MessageNotFound) <==> id !in messages
    ensures SetStateOutcome(messages, id, toolId, state) == Err(MessageHasNoMcpTool) <==>
      id in messages && messages[id].mcpTool.None?
    ensures SetStateOutcome(messages, id, toolId, state) == Err(McpToolNotFound) <==>
      id in messages && messages[id].mcpTool.Some? && forall t :: t in messages[id].mcpTool.value ==> t.id != toolId
    ensures SetStateOutcome(messages, id, toolId, state).Ok? <==> id in messages && HasTool(messages[id], toolId)
  {
    if id in messages && messages[id].mcpTool.Some? {
      var calls := messages[id].mcpTool.value;
      if ToolIndex(calls, toolId) >= 0 {
        assert calls[ToolIndex(calls, toolId)] in calls;
      }
    }
  }

  /** The whole of `executeMcpToolAction`: its return value or error, the messages and the streaming ids afterwards. */
  function Execute(
    messages: map<string, Message>, streaming: set<string>,
    message: Message, tool: McpToolCall, outcome: Result<ToolCallResponse, string>)
    : (Result<Option<bool>, string>, map<string, Message>, set<string>)
  {
    match SetStateOutcome(messages, message.id, tool.id, Executing)
    case Err(e) => (Err(e), messages, streaming)
    case Ok(executing) =>
      var messages1 := messages[message.id := executing];
      var streaming1 := streaming + {message.convId};
      if message.mcpTool.None? then (Err(MessageHasNoMcpTool), messages1, streaming1)
      else
        match CreateMcpToolCallResponse(ResponseOf(outcome))
        case Err(e) => (Err(e), messages1, streaming1)
        case Ok(result) =>
          if ToolIndex(message.mcpTool.value, tool.id) < 0 then (Err(NoToolAtIndex), messages1, streaming1)
          else
          var messages2 := messages1[message.id := WithToolResult(message, tool.id, result)];
          match SetStateOutcome(messages2, message.id, tool.id, Completed)
          case Err(e) => (Err(e), messages2, streaming1)
          case Ok(completed) =>
            (Ok(Some(AllCompleted(completed.mcpTool.value))), messages2[message.id := completed], streaming1 - {message.convId})
  }

  /** `findIndex` by id sees only the ids. */
  lemma {:induction false} ToolIndexSameIds(a: seq<McpToolCall>, b: seq<McpToolCall>, id: string)
    requires |a| == |b| && forall i :: 0 <= i < |a| ==> a[i].id == b[i].id
    ensures ToolIndex(a, id) == ToolIndex(b, id)
  {
    if a != [] {
      ToolIndexSameIds(a[1..], b[1..], id);
    }
  }

  /**
   * A successful run stores the caller's message with the tool call found by id
   * holding the new result and the state `completed`; the call must be found in
   * the caller's message.
   */
  lemma ExecuteOkShape(
    messages: map<string, Message>, streaming: set<string>,
    message: Message, tool: McpToolCall, outcome: Result<ToolCallResponse, string>)
    requires Execute(messages, streaming, message, tool, outcome).0.Ok?
    ensures message.mcpTool.Some? && ToolIndex(message.mcpTool.value, tool.id) >= 0
    ensures CreateMcpToolCallResponse(ResponseOf(outcome)).Ok?
    ensures var (r, after, streamingAfter) := Execute(messages, streaming, message, tool, outcome);
      var calls := message.mcpTool.value; var i := ToolIndex(calls, tool.id);
      var result := CreateMcpToolCallResponse(ResponseOf(outcome)).value;
      message.id in after &&
      after[message.id] == message.(mcpTool := Some(calls[i := calls[i].(result := Some(result), executeState := Completed)])) &&
      r == Ok(Some(AllCompleted(after[message.id].mcpTool.value))) &&
      streamingAfter == streaming + {message.convId} - {message.convId}
  {
    var calls := message.mcpTool.value;
    var i := ToolIndex(calls, tool.id);
    var result := CreateMcpToolCallResponse(ResponseOf(outcome)).value;
    var written := WithToolResult(message, tool.id, result);
    ToolIndexSameIds(calls, written.mcpTool.value, tool.id);
    var withResult := calls[i := calls[i].(result := Some(result))];
    assert written.mcpTool.value == withResult;
    assert withResult[i := withResult[i].(executeState := Completed)] ==
      calls[i := calls[i].(result := Some(result), executeState := Completed)];
  }

  /**
   * A successful run leaves the tool `completed` with its result stored, and
   * reports whether every tool call of the stored message is completed.
   */
  lemma ExecuteCompletes(
    messages: map<string, Message>, streaming: set<string>,
    message: Message, tool: McpToolCall, outcome: Result<ToolCallResponse, string>)
    requires Execute(messages, streaming, message, tool, outcome).0.Ok?
    ensures var (r, after, streamingAfter) := Execute(messages, streaming, message, tool, outcome);
      message.id in after && HasTool(after[message.id], tool.id) &&
      var calls := after[message.id].mcpTool.value;
      var i := ToolIndex(calls, tool.id);
      calls[i].executeState == Completed &&
      calls[i].result == Some(CreateMcpToolCallResponse(ResponseOf(outcome)).value) &&
      r.value.Some? && (r.value.value <==> forall t :: t in calls ==> t.executeState == Completed) &&
      message.convId !in streamingAfter
  {
    ExecuteOkShape(messages, streaming, message, tool, outcome);
    var (r, after, _) := Execute(messages, streaming, message, tool, outcome);
    var calls := after[message.id].mcpTool.value;
    ToolIndexSameIds(message.mcpTool.value, calls, tool.id);
    if !r.value.value {
      var j :| 0 <= j < |calls| && calls[j].executeState != Completed;
      assert calls[j] in calls;
    }
  }

  /** When the call throws, the stored result is a failure carrying the error's message. */
  lemma ExecuteRecordsThrownError(
    messages: map<string, Message>, streaming: set<string>,
    message: Message, tool: McpToolCall, error: string)
    requires Execute(messages, streaming, message, tool, Err(error)).0.Ok?
    ensures var after := Execute(messages, streaming, message, tool, Err(error)).1;
      message.id in after && HasTool(after[message.id], tool.id) &&
      var calls := after[message.id].mcpTool.value;
      calls[ToolIndex(calls, tool.id)].result == Some(ToolResult(false, "", error))
  {
    ExecuteCompletes(messages, streaming, message, tool, Err(error));
    ThrownBecomesFailure(error);
  }

  /**
   * The write-back is a clone of the caller's `message`, not of the stored one:
   * after a successful run every other tool call of the stored message is the
   * caller's copy, whatever the store held before.
   */
  lemma ExecuteWritesCallersSnapshot(
    messages: map<string, Message>, streaming: set<string>,
    message: Message, tool: McpToolCall, outcome: Result<ToolCallResponse, string>)
    requires Execute(messages, streaming, message, tool, outcome).0.Ok?
    ensures var after := Execute(messages, streaming, message, tool, outcome).1;
      message.mcpTool.Some? && message.id in after && after[message.id].mcpTool.Some? &&
      |after[message.id].mcpTool.value| == |message.mcpTool.value| &&
      after[message.id].(mcpTool := message.mcpTool) == message &&
      forall j :: 0 <= j < |message.mcpTool.value| && j != ToolIndex(message.mcpTool.value, tool.id) ==>
        after[message.id].mcpTool.value[j] == message.mcpTool.value[j]
  {
    ExecuteOkShape(messages, streaming, message, tool, outcome);
  }

  /**
   * When the stored message has the tool but the caller's copy does not, the
   * write at index -1 throws after the first update: the stored tool stays
   * `executing`, and the conversation stays streaming.
   */
  lemma ExecuteMissingToolThrows(
    messages: map<string, Message>, streaming: set<string>,
    message: Message, tool: McpToolCall, outcome: Result<ToolCallResponse, string>)
    requires message.id in messages && HasTool(messages[message.id], tool.id)
    requires message.mcpTool.Some? && forall t :: t in message.mcpTool.value ==> t.id != tool.id
    requires CreateMcpToolCallResponse(ResponseOf(outcome)).Ok?
    ensures var (r, after, streamingAfter) := Execute(messages, streaming, message, tool, outcome);
      r == Err(NoToolAtIndex) &&
      after.Keys == messages.Keys &&
      (forall id :: id in messages && id != message.id ==> after[id] == messages[id]) &&
      HasTool(after[message.id], tool.id) &&
      after[message.id].mcpTool.value[ToolIndex(after[message.id].mcpTool.value, tool.id)].executeState == Executing &&
      message.convId in streamingAfter && streamingAfter - {message.convId} == streaming - {message.convId}
  {
    var stored := messages[message.id];
    var executing := WithToolState(stored, tool.id, Executing);
    WithToolStateOnlyTarget(stored, tool.id, Executing);
    ToolIndexSameIds(stored.mcpTool.value, executing.mcpTool.value, tool.id);
  }

  /** Any failure of the first state update leaves everything as it was. */
  lemma ExecuteFailsCleanly(
    messages: map<string, Message>, streaming: set<string>,
    message: Message, tool: McpToolCall, outcome: Result<ToolCallResponse, string>)
    requires !(message.id in messages && HasTool(messages[message.id], tool.id))
    ensures SetStateOutcome(messages, message.id, tool.id, Executing).Err?
    ensures Execute(messages, streaming, message, tool, outcome) ==
      (Err(SetStateOutcome(messages, message.id, tool.id, Executing).error), messages, streaming)
  {
  }

  /** The message store the actions read and write. */
  class MessageStore {
    var messages: map<string, Message>
    var streaming: set<string>

    /** Every message is stored under its own id. */
    ghost predicate Valid()
      reads this
    {
      forall id :: id in messages ==> messages[id].id == id
    }

    constructor ()
      ensures Valid() && messages == map[] && streaming == {}
    {
      messages := map[];
      streaming := {};
    }

    /** `updateMessageAction`: the message replaces the stored one with its id. */
    method UpdateMessage(m: Message)
      requires Valid()
      modifies this
      ensures Valid() && messages == old(messages)[m.id := m] && streaming == old(streaming)
    {
      messages := messages[m.id := m];
    }

    /** `setMcpToolCallexecuteState`: `err` is the message of the error thrown, if any. */
    method SetMcpToolCallExecuteState(id: string, toolId: string, state: ExecuteState) returns (err: Option<string>)
      requires Valid()
      modifies this
      ensures Valid() && streaming == old(streaming)
      ensures SetStateOutcome(old(messages), id, toolId, state).Ok? ==>
        err.None? && messages == old(messages)[id := SetStateOutcome(old(messages), id, toolId, state).value]
      ensures SetStateOutcome(old(messages), id, toolId, state).Err? ==>
        err == Some(SetStateOutcome(old(messages), id, toolId, state).error) && messages == old(messages)
    {
      if id !in messages {
        return Some(MessageNotFound);
      }
      var message := messages[id];
      if message.mcpTool.None? {
        return Some(MessageHasNoMcpTool);
      }
      var toolIndex := ToolIndex(message.mcpTool.value, toolId);
      if toolIndex < 0 {
        return Some(McpToolNotFound);
      }
      var calls := message.mcpTool.value;
      message := message.(mcpTool := Some(calls[toolIndex := calls[toolIndex].(executeState := state)]));
      UpdateMessage(message);
      err := None;
    }

    /**
     * `executeMcpToolAction(message, tool)`, with `outcome` the response of the
     * tool call or the message of the error it throws. Returns `isAllCompleted`.
     */
    method ExecuteMcpToolAction(message: Message, tool: McpToolCall, outcome: Result<ToolCallResponse, string>)
      returns (r: Result<Option<bool>, string>)
      requires Valid()
      modifies this
      ensures Valid()
      ensures (r, messages, streaming) == Execute(old(messages), old(streaming), message, tool, outcome)
    {
      var err := SetMcpToolCallExecuteState(message.id, tool.id, Executing);
      if err.Some? {
        return Err(err.value);
      }
      streaming := streaming + {message.convId};
      if message.mcpTool.None? {
        return Err(MessageHasNoMcpTool);
      }
      var response := if outcome.Ok? then outcome.value else Thrown(outcome.error);
      var result := CreateMcpToolCallResponse(response);
      assert response == ResponseOf(outcome);
      if result.Err? {
        return Err(result.error);
      }
      var toolIndex := ToolIndex(message.mcpTool.value, tool.id);
      var newMessage := message;
      if toolIndex < 0 {
        return Err(NoToolAtIndex);
      }
      var calls := newMessage.mcpTool.value;
      newMessage := newMessage.(mcpTool := Some(calls[toolIndex := calls[toolIndex].(result := Some(result.value))]));
      UpdateMessage(newMessage);
      err := SetMcpToolCallExecuteState(message.id, tool.id, Completed);
      if err.Some? {
        return Err(err.value);
      }
      streaming := streaming - {message.convId};
      var latest := messages[message.id];
      r := Ok(Some(AllCompleted(latest.mcpTool.value)));
    }
  }
}
