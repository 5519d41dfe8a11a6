/**
 * The OpenAI provider (packages/electron/src/main/ai-providers/providers/openai/index.ts):
 * canonical messages and MCP tools turned into the chat-completions request format,
 * and the streamed response turned back into stream chunks, with tool-call
 * fragments accumulated by id and their namespaced names split apart.
 *
 * The HTTP client, the request options and `createConversationTitle` are not modelled.
 * `JSON.stringify` is not modelled: the request carries the values it would serialise.
 * `JSON.parse` is a parameter, `None` when it throws.
 */
module OpenAiProvider {
  import opened Wrappers
  import opened Json
  import opened Strings
  import opened ToolNames
  import opened ChatTypes
  import opened Seqs
  import McpClientHub

  // ---------------------------------------------------------------------------
  // Request: message and tool transforms
  // ---------------------------------------------------------------------------

  datatype UserPart = UserText(text: string) | ImageUrl(url: string)

  datatype AssistantPart = AssistantText(text: string)

  /** A `tool_calls` entry; `arguments` is the value that is serialised. */
  datatype ToolCall = ToolCall(id: string, name: string, arguments: Json)

  /** A `role: 'tool'` message; `content` is the result that is serialised. */
  datatype ToolMessage = ToolMessage(toolCallId: string, content: ToolResult)

  datatype RequestMessage =
    | UserMessage(parts: seq<UserPart>)
    | AssistantMessage(texts: seq<AssistantPart>, toolCalls: Option<seq<ToolCall>>)
    | ToolResultMessage(tool: ToolMessage)

  /** A `ChatCompletionTool`. */
  datatype FunctionTool = FunctionTool(name: string, description: string, parameters: McpClientHub.InputSchema)

  function UserPartOf(c: Content): seq<UserPart> {
    match c
    case TextContent(t) => [UserText(t)]
    case ImageContent(d) => [ImageUrl(d)]
    case _ => []
  }

  /** `transformUserMessageContent`: text and image parts, in order; everything else dropped. */
  function TransformUserContent(cs: seq<Content>): seq<UserPart> {
    FlatMap(UserPartOf, cs)
  }

  function AssistantPartOf(c: Content): seq<AssistantPart> {
    if c.TextContent? then [AssistantText(c.text)] else []
  }

  /** `transformAssistantMessageContent`: only the text parts, in order. */
  function TransformAssistantContent(cs: seq<Content>): seq<AssistantPart> {
    FlatMap(AssistantPartOf, cs)
  }

  /** String concatenation with a possibly undefined tool name, as JavaScript's `+` does it. */
  function ToolNameText(toolName: Option<string>): string {
    toolName.GetOr("undefined")
  }

  /** The `tool_call` generated for one MCP tool call; `tool.args || {}` is what is serialised. */
  function CallOf(t: McpToolCall): ToolCall {
    ToolCall(t.id, Join(t.serverName, ToolNameText(t.toolName)), JsOr(t.args, Some(JObj(map[]))).value)
  }

  /** The first half of `transformMcpToolCalls`: one `tool_call` per MCP tool call. */
  function ToolCallsOf(calls: seq<McpToolCall>): (r: seq<ToolCall>)
    ensures |r| == |calls|
    ensures forall i :: 0 <= i < |calls| ==>
      r[i].id == calls[i].id && r[i].name == Join(calls[i].serverName, ToolNameText(calls[i].toolName)) &&
      r[i].arguments == (if calls[i].args.Some? && IsTruthy(calls[i].args.value) then calls[i].args.value else JObj(map[]))
  {
    seq(|calls|, i requires 0 <= i < |calls| => CallOf(calls[i]))
  }

  function ToolMessageOf(t: McpToolCall): seq<ToolMessage> {
    if t.executeState == Completed && t.result.Some? then [ToolMessage(t.id, t.result.value)] else []
  }

  /** The second half of `transformMcpToolCalls`: a tool message per completed call with a result. */
  function ToolMessagesOf(calls: seq<McpToolCall>): seq<ToolMessage> {
    FlatMap(ToolMessageOf, calls)
  }

  /** What one canonical message becomes: its own entry, then its tool results. */
  function Block(m: Message): (r: seq<RequestMessage>)
    ensures |r| >= 1
  {
    if m.role == User then [UserMessage(TransformUserContent(m.content))]
    else
      var calls := if m.mcpTool.Some? then m.mcpTool.value else [];
      var toolCalls := if calls != [] then Some(ToolCallsOf(calls)) else None;
      [AssistantMessage(TransformAssistantContent(m.content), toolCalls)] + ResultMessages(calls)
  }

  /** The tool messages of `calls`, as request entries. */
  function ResultMessages(calls: seq<McpToolCall>): (r: seq<RequestMessage>)
    ensures |r| == |ToolMessagesOf(calls)|
    ensures forall i :: 0 <= i < |r| ==> r[i] == ToolResultMessage(ToolMessagesOf(calls)[i])
  {
    var ms := ToolMessagesOf(calls);
    seq(|ms|, i requires 0 <= i < |ms| => ToolResultMessage(ms[i]))
  }

  /** `transformMessages`. */
  function TransformMessages(ms: seq<Message>): seq<RequestMessage> {
    FlatMap(Block, ms)
  }

  /** The number of tool results a message contributes. */
  function ResultCount(m: Message): nat {
    if m.role == User || m.mcpTool.None? then 0 else |ToolMessagesOf(m.mcpTool.value)|
  }

  function ResultCounts(ms: seq<Message>): nat {
    if ms == [] then 0 else ResultCounts(ms[..|ms| - 1]) + ResultCount(ms[|ms| - 1])
  }

  function ToolOf(t: McpClientHub.Tool): FunctionTool {
    FunctionTool(t.name, t.description.GetOr(""), t.inputSchema)
  }

  /** `transformMcpTools`: one function tool per MCP tool, description defaulting to "". */
  function TransformMcpTools(tools: seq<McpClientHub.Tool>): (r: seq<FunctionTool>)
    ensures |r| == |tools|
    ensures forall i :: 0 <= i < |tools| ==> r[i].name == tools[i].name && r[i].parameters == tools[i].inputSchema
    ensures forall i :: 0 <= i < |tools| ==> r[i].description == if tools[i].description.Some? then tools[i].description.value else ""
  {
    seq(|tools|, i requires 0 <= i < |tools| => ToolOf(tools[i]))
  }

  // ---- lemmas about the request transforms ----

  /** User content: a text or image part is sent exactly when the message holds it. */
  lemma UserContentExactly(cs: seq<Content>, p: UserPart)
    ensures p in TransformUserContent(cs) <==>
      (p.UserText? && TextContent(p.text) in cs) || (p.ImageUrl? && ImageContent(p.url) in cs)
  {
    FlatMapContains(UserPartOf, cs, p);
    if p.UserText? && TextContent(p.text) in cs {
      assert p in UserPartOf(TextContent(p.text));
    }
    if p.ImageUrl? && ImageContent(p.url) in cs {
      assert p in UserPartOf(ImageContent(p.url));
    }
  }

  /** Assistant content: exactly the texts are sent; errors, images and files are dropped. */
  lemma AssistantContentExactly(cs: seq<Content>, t: string)
    ensures AssistantText(t) in TransformAssistantContent(cs) <==> TextContent(t) in cs
  {
    FlatMapContains(AssistantPartOf, cs, AssistantText(t));
    if TextContent(t) in cs {
      assert AssistantText(t) in AssistantPartOf(TextContent(t));
    }
  }

  /** Both content transforms keep order: they distribute over concatenation. */
  lemma ContentTransformsAppend(a: seq<Content>, b: seq<Content>)
    ensures TransformUserContent(a + b) == TransformUserContent(a) + TransformUserContent(b)
    ensures TransformAssistantContent(a + b) == TransformAssistantContent(a) + TransformAssistantContent(b)
  {
    FlatMapAppend(UserPartOf, a, b);
    FlatMapAppend(AssistantPartOf, a, b);
  }

  /** A tool message is emitted for a call exactly when it completed with a result. */
  lemma ToolMessagesExactly(calls: seq<McpToolCall>, m: ToolMessage)
    ensures m in ToolMessagesOf(calls) <==>
      exists c :: c in calls && c.id == m.toolCallId && c.executeState == Completed && c.result == Some(m.content)
  {
    FlatMapContains(ToolMessageOf, calls, m);
    if exists c :: c in calls && c.id == m.toolCallId && c.executeState == Completed && c.result == Some(m.content) {
      var c :| c in calls && c.id == m.toolCallId && c.executeState == Completed && c.result == Some(m.content);
      assert m in ToolMessageOf(c);
    }
  }

  /**
   * Order is preserved and each message's block is contiguous: the output is the
   * output for the messages before `ms[i]`, then `ms[i]`'s own entry immediately
   * followed by its tool results, then the output for the messages after it.
   */
  lemma TransformMessagesAt(ms: seq<Message>, i: nat)
    requires i < |ms|
    ensures TransformMessages(ms) == TransformMessages(ms[..i]) + Block(ms[i]) + TransformMessages(ms[i + 1..])
  {
    FlatMapAt(Block, ms, i);
  }

  /**
   * A block: a user entry alone, or an assistant entry (with `tool_calls` exactly
   * when the message has tool calls) followed only by its tool results.
   */
  lemma BlockShape(m: Message)
    ensures m.role == User ==> Block(m) == [UserMessage(TransformUserContent(m.content))]
    ensures m.role == Assistant ==> (Block(m)[0].AssistantMessage? &&
      (Block(m)[0].toolCalls.Some? <==> m.mcpTool.Some? && m.mcpTool.value != []) &&
      |Block(m)| == 1 + ResultCount(m) &&
      forall k :: 1 <= k < |Block(m)| ==> Block(m)[k].ToolResultMessage?)
  {
  }

  /** Output length: one entry per message plus one per completed tool result; none for no messages. */
  lemma {:induction false} TransformMessagesLength(ms: seq<Message>)
    ensures |TransformMessages(ms)| == |ms| + ResultCounts(ms)
    ensures ms == [] ==> TransformMessages(ms) == []
  {
    if ms != [] {
      TransformMessagesLength(ms[..|ms| - 1]);
      BlockShape(ms[|ms| - 1]);
    }
  }

  /**
   * The mixed conversation of the transform's unit tests: a user message, an
   * assistant message with one completed tool call, another user message.
   */
  lemma MixedConversation(u1: Message, a: Message, u2: Message, call: McpToolCall, r: ToolResult)
    requires u1.role == User && u2.role == User && a.role == Assistant
    requires a.mcpTool == Some([call]) && call.executeState == Completed && call.result == Some(r)
    ensures var out := TransformMessages([u1, a, u2]);
      |out| == 4 && out[0].UserMessage? && out[1].AssistantMessage? && out[1].toolCalls == Some([CallOf(call)]) &&
      out[2] == ToolResultMessage(ToolMessage(call.id, r)) && out[3].UserMessage?
  {
    var ms := [u1, a, u2];
    FlatMapSingle(ToolMessageOf, call);
    assert ToolMessagesOf([call]) == [ToolMessage(call.id, r)];
    assert ResultMessages([call]) == [ToolResultMessage(ToolMessage(call.id, r))];
    assert ToolCallsOf([call]) == [CallOf(call)];
    assert Block(a) == [AssistantMessage(TransformAssistantContent(a.content), Some([CallOf(call)])),
      ToolResultMessage(ToolMessage(call.id, r))];
    TransformMessagesAt(ms, 1);
    assert ms[..1] == [u1] && ms[2..] == [u2];
    FlatMapSingle(Block, u1);
    FlatMapSingle(Block, u2);
  }

  // ---------------------------------------------------------------------------
  // Response: accumulating streamed tool-call fragments
  // ---------------------------------------------------------------------------

  /** The name and arguments text gathered so far for one tool-call id. */
  datatype RawCall = RawCall(name: string, arguments: string)

  /** One entry of a chunk's `delta.tool_calls`. */
  datatype ToolFragment = ToolFragment(id: Option<string>, name: Option<string>, arguments: Option<string>)

  /** One streamed chunk: `finish_reason` and the delta. */
  datatype Chunk = Chunk(
    finishReason: Option<string>, content: Option<string>, reasoning: Option<string>, toolCalls: Option<seq<ToolFragment>>)

  /** What the provider yields to the chat service. */
  datatype StreamChunk = StreamChunk(content: seq<Content>, reasoningContent: string, functionCalls: Option<seq<McpToolCall>>)

  /**
   * `mcpToolRawMapping` (its keys in insertion order, which `Object.entries` follows)
   * and `currentToolId`.
   */
  datatype Accumulated = Accumulated(order: seq<string>, raw: map<string, RawCall>, current: string)

  const Fresh: Accumulated := Accumulated([], map[], "")

  /** Keys in `order` exactly once each, and exactly the keys of the mapping. */
  ghost predicate WellKeyed(a: Accumulated) {
    (forall id :: id in a.raw <==> id in a.order) &&
    forall i, j :: 0 <= i < j < |a.order| ==> a.order[i] != a.order[j]
  }

  /**
   * One fragment: a truthy id becomes the current id; the current id gets an empty
   * entry if it has none; a truthy name or arguments text is appended to its entry.
   */
  function Absorb(a: Accumulated, f: ToolFragment): (r: Accumulated)
    ensures WellKeyed(a) ==> WellKeyed(r)
    ensures r.current in r.raw && a.raw.Keys <= r.raw.Keys
  {
    var current := if Truthy(f.id) then f.id.value else a.current;
    var order := if current in a.raw then a.order else a.order + [current];
    var entry := if current in a.raw then a.raw[current] else RawCall("", "");
    var entry' := RawCall(
      entry.name + (if Truthy(f.name) then f.name.value else ""),
      entry.arguments + (if Truthy(f.arguments) then f.arguments.value else ""));
    Accumulated(order, a.raw[current := entry'], current)
  }

  function AbsorbAll(a: Accumulated, fs: seq<ToolFragment>): (r: Accumulated)
    ensures WellKeyed(a) ==> WellKeyed(r)
  {
    if fs == [] then a else Absorb(AbsorbAll(a, fs[..|fs| - 1]), fs[|fs| - 1])
  }

  /** `safeParseJson`: what `JSON.parse` gives, or `{}` when it throws. */
  function SafeParseJson(parsed: Option<Json>): (r: Json)
    ensures parsed.None? ==> r == JObj(map[])
    ensures parsed.Some? ==> r == parsed.value
  {
    parsed.GetOr(JObj(map[]))
  }

  /** The MCP tool call built for one accumulated entry: its name split at the separator. */
  function FinishedCall(id: string, entry: RawCall, parse: string -> Option<Json>): McpToolCall {
    var (serverName, toolName) := SplitName(entry.name);
    McpToolCall(id, serverName, toolName, Some(SafeParseJson(parse(entry.arguments))), Await, None)
  }

  /** The `functionCalls` yielded at the finish: one per accumulated id, in insertion order. */
  function FinishCalls(a: Accumulated, parse: string -> Option<Json>): (r: seq<McpToolCall>)
    requires WellKeyed(a)
    ensures |r| == |a.order|
    ensures forall i :: 0 <= i < |r| ==> r[i] == FinishedCall(a.order[i], a.raw[a.order[i]], parse)
  {
    seq(|a.order|, i requires 0 <= i < |a.order| => FinishedCall(a.order[i], a.raw[a.order[i]], parse))
  }

  /** What a chunk without a finish reason yields. */
  function DeltaChunk(c: Chunk): StreamChunk {
    StreamChunk([TextContent(c.content.GetOr(""))], c.reasoning.GetOr(""), None)
  }

  /** What the finishing chunk yields: the accumulated calls, when there are any. */
  function FinishYield(a: Accumulated, parse: string -> Option<Json>): seq<StreamChunk>
    requires WellKeyed(a)
  {
    if a.raw != map[] then [StreamChunk([], "", Some(FinishCalls(a, parse)))] else []
  }

  /** The whole stream from accumulated state `a`: the chunks yielded and the final state. */
  function Run(a: Accumulated, chunks: seq<Chunk>, parse: string -> Option<Json>): (r: (seq<StreamChunk>, Accumulated))
    requires WellKeyed(a)
    ensures WellKeyed(r.1)
    decreases |chunks|
  {
    if chunks == [] then ([], a)
    else if Truthy(chunks[0].finishReason) then (FinishYield(a, parse), a)
    else
      var a' := AbsorbAll(a, chunks[0].toolCalls.GetOr([]));
      var rest := Run(a', chunks[1..], parse);
      ([DeltaChunk(chunks[0])] + rest.0, rest.1)
  }

  // ---- lemmas about the accumulation ----

  /** A chunk with a finish reason ends the run: it yields the calls and keeps the state. */
  lemma RunFinish(a: Accumulated, chunks: seq<Chunk>, parse: string -> Option<Json>)
    requires WellKeyed(a) && chunks != [] && Truthy(chunks[0].finishReason)
    ensures Run(a, chunks, parse) == (FinishYield(a, parse), a)
  {
  }

  /** One step of `Run` on a chunk without a finish reason. */
  lemma RunDelta(a: Accumulated, chunks: seq<Chunk>, parse: string -> Option<Json>)
    requires WellKeyed(a) && chunks != [] && !Truthy(chunks[0].finishReason)
    ensures var next := Run(AbsorbAll(a, chunks[0].toolCalls.GetOr([])), chunks[1..], parse);
      Run(a, chunks, parse) == ([DeltaChunk(chunks[0])] + next.0, next.1)
  {
  }

  /** A fragment without an id extends the entry of the most recent id and touches no other. */
  lemma AbsorbWithoutId(a: Accumulated, f: ToolFragment)
    requires !Truthy(f.id) && a.current in a.raw
    ensures Absorb(a, f).current == a.current && Absorb(a, f).order == a.order
    ensures Absorb(a, f).raw[a.current].name == a.raw[a.current].name + (if Truthy(f.name) then f.name.value else "")
    ensures Absorb(a, f).raw[a.current].arguments ==
      a.raw[a.current].arguments + (if Truthy(f.arguments) then f.arguments.value else "")
    ensures forall id :: id in a.raw && id != a.current ==> Absorb(a, f).raw[id] == a.raw[id]
  {
  }

  function NameText(fs: seq<ToolFragment>): string {
    if fs == [] then "" else NameText(fs[..|fs| - 1]) + (if Truthy(fs[|fs| - 1].name) then fs[|fs| - 1].name.value else "")
  }

  function ArgumentsText(fs: seq<ToolFragment>): string {
    if fs == [] then "" else ArgumentsText(fs[..|fs| - 1]) + (if Truthy(fs[|fs| - 1].arguments) then fs[|fs| - 1].arguments.value else "")
  }

  /**
   * A call streamed as a fragment with a fresh id followed by id-less fragments ends
   * up as one entry holding the concatenation of all their names and arguments.
   */
  lemma {:induction false} FragmentsConcatenate(a: Accumulated, fs: seq<ToolFragment>)
    requires fs != [] && Truthy(fs[0].id) && fs[0].id.value !in a.raw
    requires forall k :: 1 <= k < |fs| ==> !Truthy(fs[k].id)
    ensures var r := AbsorbAll(a, fs); var id := fs[0].id.value;
      r.current == id && r.order == a.order + [id] &&
      r.raw[id] == RawCall(NameText(fs), ArgumentsText(fs)) &&
      forall other :: other in a.raw ==> other in r.raw && r.raw[other] == a.raw[other]
  {
    var init := fs[..|fs| - 1];
    if init == [] {
      assert AbsorbAll(a, init) == a;
      assert NameText(fs) == NameText(init) + (if Truthy(fs[0].name) then fs[0].name.value else "");
    } else {
      assert init[0] == fs[0];
      FragmentsConcatenate(a, init);
      assert NameText(fs) == NameText(init) + (if Truthy(fs[|fs| - 1].name) then fs[|fs| - 1].name.value else "");
    }
  }

  /**
   * The round trip through the model: a tool call sent as `server___tool` and streamed
   * back as a single fragment comes back with the same id, server and tool, when the
   * server name splits cleanly and the tool name holds no separator.
   */
  lemma ToolCallRoundTrip(t: McpToolCall, parse: string -> Option<Json>)
    requires t.id != "" && t.toolName.Some?
    requires SplitsCleanly(t.serverName) && !Contains(t.toolName.value, Separator)
    ensures var call := CallOf(t);
      var a := Absorb(Fresh, ToolFragment(Some(call.id), Some(call.name), None));
      FinishCalls(a, parse) == [McpToolCall(t.id, t.serverName, t.toolName, Some(SafeParseJson(parse(""))), Await, None)]
  {
    SplitJoin(t.serverName, t.toolName.value);
    var call := CallOf(t);
    var a := Absorb(Fresh, ToolFragment(Some(call.id), Some(call.name), None));
    assert a.raw[t.id] == RawCall(call.name, "");
  }

  /** Every chunk before the finish yields one text item; the finish yields the calls, if any, and ends the stream. */
  lemma {:induction false} RunShape(a: Accumulated, chunks: seq<Chunk>, parse: string -> Option<Json>)
    requires WellKeyed(a)
    ensures |Run(a, chunks, parse).0| <= |chunks|
    ensures forall k :: 0 <= k < |Run(a, chunks, parse).0| ==>
      Run(a, chunks, parse).0[k].functionCalls.None? ==> Run(a, chunks, parse).0[k] == DeltaChunk(chunks[k])
    decreases |chunks|
  {
    if chunks != [] && !Truthy(chunks[0].finishReason) {
      RunShape(AbsorbAll(a, chunks[0].toolCalls.GetOr([])), chunks[1..], parse);
    }
  }

  /** The provider's streaming state: `mcpToolRawMapping` and `currentToolId`. */
  class OpenAIService {
    var order: seq<string>
    var raw: map<string, RawCall>
    var currentToolId: string

    function State(): Accumulated
      reads this
    {
      Accumulated(order, raw, currentToolId)
    }

    ghost predicate Valid()
      reads this
    {
      WellKeyed(State())
    }

    constructor ()
      ensures Valid() && State() == Fresh
    {
      order := [];
      raw := map[];
      currentToolId := "";
    }

    /** The body of the `tool_calls?.forEach` for one fragment. */
    method AbsorbOne(f: ToolFragment)
      requires Valid()
      modifies this
      ensures Valid() && State() == Absorb(old(State()), f)
    {
      ghost var before := State();
      assert WellKeyed(Absorb(before, f));
      var current, ids, calls := currentToolId, order, raw;
      if Truthy(f.id) {
        current := f.id.value;
      }
      if current !in calls {
        calls := calls[current := RawCall("", "")];
        ids := ids + [current];
      }
      var entry := calls[current];
      var name := entry.name + (if Truthy(f.name) then f.name.value else "");
      var arguments := entry.arguments + (if Truthy(f.arguments) then f.arguments.value else "");
      calls := calls[current := RawCall(name, arguments)];
      assert Accumulated(ids, calls, current) == Absorb(before, f);
      currentToolId, order, raw := current, ids, calls;
    }

    /** The `tool_calls?.forEach` of one chunk. */
    method AbsorbFragments(fragments: seq<ToolFragment>)
      requires Valid()
      modifies this
      ensures Valid() && State() == AbsorbAll(old(State()), fragments)
    {
      var i := 0;
      while i < |fragments|
        invariant 0 <= i <= |fragments|
        invariant Valid() && State() == AbsorbAll(old(State()), fragments[..i])
      {
        AbsorbOne(fragments[i]);
        assert fragments[..i + 1][..i] == fragments[..i];
        i := i + 1;
      }
      assert fragments[..i] == fragments;
    }

    /**
     * The `for await` loop of `sendChatCompletions` over `chunks`, with `parse`
     * standing for `JSON.parse`. Returns the chunks yielded.
     */
    method SendChatCompletions(chunks: seq<Chunk>, parse: string -> Option<Json>) returns (yielded: seq<StreamChunk>)
      requires Valid()
      modifies this
      ensures Valid()
      ensures (yielded, State()) == Run(old(State()), chunks, parse)
    {
      ghost var total := Run(State(), chunks, parse);
      yielded := [];
      var i := 0;
      assert chunks[i..] == chunks;
      assert total.0 == yielded + Run(State(), chunks[i..], parse).0;
      while i < |chunks|
        invariant 0 <= i <= |chunks| && Valid()
        invariant total.0 == yielded + Run(State(), chunks[i..], parse).0
        invariant total.1 == Run(State(), chunks[i..], parse).1
      {
        var chunk := chunks[i];
        ghost var rest := chunks[i..];
        assert rest[0] == chunk && rest[1..] == chunks[i + 1..];
        if Truthy(chunk.finishReason) {
          RunFinish(State(), rest, parse);
          ghost var before := yielded;
          if raw != map[] {
            yielded := yielded + [StreamChunk([], "", Some(FinishCalls(State(), parse)))];
          } else {
            assert before + FinishYield(State(), parse) == before;
          }
          assert yielded == before + FinishYield(State(), parse);
          return;
        }
        RunDelta(State(), rest, parse);
        ghost var before := yielded;
        AbsorbFragments(chunk.toolCalls.GetOr([]));
        yielded := yielded + [DeltaChunk(chunk)];
        AppendAssoc(before, [DeltaChunk(chunk)], Run(State(), chunks[i + 1..], parse).0);
        i := i + 1;
      }
      assert chunks[i..] == [] && yielded + [] == yielded;
    }
  }
}
