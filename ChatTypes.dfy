/**
 * The canonical chat records shared by the providers, the chat service and the
 * renderer's message store: message content items, MCP tool calls with their
 * execution state and result, and messages.
 */
module ChatTypes {
  import opened Wrappers
  import opened Json

  /** A content item of a message (`MessageContent[number]`). */
  datatype Content =
    | TextContent(text: string)
    | ImageContent(data: string)
    | ErrorContent(error: string)
    | FileContent(name: string)

  datatype Role = User | Assistant

  datatype ExecuteState = Await | Executing | Completed

  /** What a finished tool call produced, as `createMcpToolCallResponse` builds it. */
  datatype ToolResult = ToolResult(success: bool, data: string, error: string)

  /** `IMcpToolCall`. */
  datatype McpToolCall = McpToolCall(
    id: string,
    serverName: string,
    toolName: Option<string>,
    args: Option<Json>,
    executeState: ExecuteState,
    result: Option<ToolResult>)

  datatype MessageStatus = Typing | Success | Failure

  /** `IMessage`, with the fields the modelled code reads or writes. */
  datatype Message = Message(
    id: string,
    convId: string,
    role: Role,
    content: seq<Content>,
    reasoningContent: string,
    mcpTool: Option<seq<McpToolCall>>,
    status: MessageStatus)

  predicate IsText(c: Content) {
    c.TextContent?
  }
}
