/**
 * The chat service of the main process
 * (packages/electron/src/main/ai-providers/services/chat-service.ts): the provider
 * guards of `ChatService`, and the loop of `handleChatCompletions` that folds the
 * provider's stream chunks into the assistant message and reports it after every
 * chunk, on failure and on success.
 *
 * The database, the window emitter and the abort controller are left out: each
 * `updateMessage` + `chat:stream-message` pair is one entry of the returned list
 * of messages sent. The provider table and `AIProviderMapping` are parameters.
 */
module ChatService {
  import opened Wrappers
  import opened Seqs
  import opened ChatTypes
  import opened OpenAiProvider

  const ProviderNotFound: string := "Provider not found"
  const UnsupportedApiMode: string := "not support apiMode: "
  const ProviderNotSet: string := "AI provider not set"

  /** A provider service record, as the database returns it. */
  datatype ProviderService = ProviderService(id: string, apiMode: string, baseUrl: string, apiKey: string)

  /** The provider instance built for an api mode, with its base URL and key. */
  datatype ProviderClient = ProviderClient(apiMode: string, baseUrl: string, apiKey: string)

  function ClientFor(p: ProviderService): ProviderClient {
    ProviderClient(p.apiMode, p.baseUrl, p.apiKey)
  }

  class ChatService {
    var aiProvider: Option<ProviderClient>

    constructor ()
      ensures aiProvider == None
    {
      aiProvider := None;
    }

    /**
     * `initializeProvider(providerId)`, with `providers` the provider table and
     * `supportedModes` the keys of `AIProviderMapping`; `err` is the error thrown.
     */
    method InitializeProvider(providerId: string, providers: map<string, ProviderService>, supportedModes: set<string>)
      returns (err: Option<string>)
      modifies this
      ensures providerId !in providers ==> err == Some(ProviderNotFound) && aiProvider == old(aiProvider)
      ensures providerId in providers && providers[providerId].apiMode !in supportedModes ==>
        err == Some(UnsupportedApiMode + providers[providerId].apiMode) && aiProvider == old(aiProvider)
      ensures providerId in providers && providers[providerId].apiMode in supportedModes ==>
        err.None? && aiProvider == Some(ClientFor(providers[providerId]))
    {
      if providerId !in providers {
        return Some(ProviderNotFound);
      }
      var provider := providers[providerId];
      if provider.apiMode !in supportedModes {
        return Some(UnsupportedApiMode + provider.apiMode);
      }
      aiProvider := Some(ClientFor(provider));
      err := None;
    }

    /** `sendChatCompletions`: fails without a provider, otherwise hands the request to it. */
    method SendChatCompletions() returns (r: Result<ProviderClient, string>)
      ensures aiProvider.None? <==> r == Err(ProviderNotSet)
      ensures aiProvider.Some? ==> r == Ok(aiProvider.value)
    {
      if aiProvider.None? {
        return Err(ProviderNotSet);
      }
      r := Ok(aiProvider.value);
    }

    /** `createConversationTitle`: the same guard. */
    method CreateConversationTitle() returns (r: Result<ProviderClient, string>)
      ensures aiProvider.None? <==> r == Err(ProviderNotSet)
      ensures aiProvider.Some? ==> r == Ok(aiProvider.value)
    {
      if aiProvider.None? {
        return Err(ProviderNotSet);
      }
      r := Ok(aiProvider.value);
    }
  }

  /**
   * The start of `handleChatCompletions`: a fresh service whose `initializeProvider`
   * is not awaited, so its error is never seen here, then `sendChatCompletions`,
   * whose call into the provider gives `call`. Returns the stream or the error caught.
   */
  method OpenStream(
    providerId: string, providers: map<string, ProviderService>, supportedModes: set<string>,
    call: Result<seq<StreamChunk>, string>)
    returns (start: Result<seq<StreamChunk>, string>)
    ensures providerId in providers && providers[providerId].apiMode in supportedModes ==> start == call
    ensures !(providerId in providers && providers[providerId].apiMode in supportedModes) ==> start == Err(ProviderNotSet)
  {
    var service := new ChatService();
    var _ := service.InitializeProvider(providerId, providers, supportedModes);
    var provider := service.SendChatCompletions();
    if provider.Err? {
      return Err(provider.error);
    }
    start := call;
  }

  // ---------------------------------------------------------------------------
  // Folding stream chunks into the assistant message
  // ---------------------------------------------------------------------------

  /** One incoming content item: a text right after a text extends it; anything else is pushed. */
  function MergeOne(content: seq<Content>, item: Content): seq<Content> {
    if item.TextContent? && |content| > 0 && content[|content| - 1].TextContent? then
      content[..|content| - 1] + [TextContent(content[|content| - 1].text + item.text)]
    else content + [item]
  }

  /** The `content.forEach` of one chunk. */
  function MergeAll(content: seq<Content>, items: seq<Content>): seq<Content> {
    if items == [] then content else MergeOne(MergeAll(content, items[..|items| - 1]), items[|items| - 1])
  }

  /** The message after one chunk: reasoning appended, content merged, tool calls replaced when given. */
  function Accumulate(m: Message, chunk: StreamChunk): Message {
    m.(reasoningContent := m.reasoningContent + chunk.reasoningContent,
       content := MergeAll(m.content, chunk.content),
       mcpTool := if chunk.functionCalls.Some? then chunk.functionCalls else m.mcpTool)
  }

  /** The message after the chunks. */
  function Streamed(m: Message, chunks: seq<StreamChunk>): Message {
    if chunks == [] then m else Accumulate(Streamed(m, chunks[..|chunks| - 1]), chunks[|chunks| - 1])
  }

  /** The updates sent for the first `n` chunks, each as `typing`. */
  function TypingUpdates(m: Message, chunks: seq<StreamChunk>, n: nat): (r: seq<Message>)
    requires n <= |chunks|
    ensures |r| == n
  {
    if n == 0 then [] else TypingUpdates(m, chunks, n - 1) + [Streamed(m, chunks[..n]).(role := Assistant, status := Typing)]
  }

  /** The message sent after a failure: one error item pushed, status `error`. */
  function Failed(m: Message, error: string): Message {
    m.(content := m.content + [ErrorContent(error)], role := Assistant, status := Failure)
  }

  /** A failure of the stream: it throws when asked for chunk `at` (an abort or a transport error). */
  datatype StreamFailure = StreamFailure(at: nat, message: string)

  /** Where the stream stops: at the failure, if it comes before the end, or at the end. */
  function StopAt(chunks: seq<StreamChunk>, failure: Option<StreamFailure>): (n: nat)
    ensures n <= |chunks|
  {
    if failure.Some? && failure.value.at <= |chunks| then failure.value.at else |chunks|
  }

  predicate FailsAt(chunks: seq<StreamChunk>, failure: Option<StreamFailure>) {
    failure.Some? && failure.value.at <= |chunks|
  }

  /** Every message `handleChatCompletions` sends after the initial one, from the start of the stream on. */
  function Handled(m: Message, start: Result<seq<StreamChunk>, string>, failure: Option<StreamFailure>): seq<Message> {
    match start
    case Err(e) => [Failed(m, e)]
    case Ok(chunks) =>
      var n := StopAt(chunks, failure);
      TypingUpdates(m, chunks, n) +
      [if FailsAt(chunks, failure) then Failed(Streamed(m, chunks[..n]), failure.value.message)
       else Streamed(m, chunks).(role := Assistant, status := Success)]
  }

  /**
   * Lines 86-156 of `handleChatCompletions`, from the result of
   * `sendChatCompletions` on: the messages sent, in order.
   */
  method HandleStream(aiMessage: Message, start: Result<seq<StreamChunk>, string>, failure: Option<StreamFailure>)
    returns (sent: seq<Message>)
    ensures sent == Handled(aiMessage, start, failure)
  {
    if start.Err? {
      var content := aiMessage.content + [ErrorContent(start.error)];
      return [aiMessage.(content := content, role := Assistant, status := Failure)];
    }
    var chunks := start.value;
    var n := StopAt(chunks, failure);
    var message := aiMessage;
    sent := [];
    var i := 0;
    while i < n
      invariant 0 <= i <= n
      invariant message == Streamed(aiMessage, chunks[..i])
      invariant sent == TypingUpdates(aiMessage, chunks, i)
    {
      var chunk := chunks[i];
      message := AbsorbChunk(message, chunk);
      assert chunks[..i + 1][..i] == chunks[..i];
      sent := sent + [message.(role := Assistant, status := Typing)];
      i := i + 1;
    }
    if FailsAt(chunks, failure) {
      var content := message.content + [ErrorContent(failure.value.message)];
      sent := sent + [message.(content := content, role := Assistant, status := Failure)];
    } else {
      assert chunks[..i] == chunks;
      sent := sent + [message.(role := Assistant, status := Success)];
    }
  }

  /** The body of the `for await` loop for one chunk. */
  method AbsorbChunk(message: Message, chunk: StreamChunk) returns (r: Message)
    ensures r == Accumulate(message, chunk)
  {
    r := message;
    if chunk.reasoningContent != "" {
      r := r.(reasoningContent := r.reasoningContent + chunk.reasoningContent);
    } else {
      assert r.reasoningContent + chunk.reasoningContent == r.reasoningContent;
    }
    var content := MergeContent(r.content, chunk.content);
    r := r.(content := content);
    if chunk.functionCalls.Some? {
      r := r.(mcpTool := chunk.functionCalls);
    }
  }

  /** The `content.forEach` of one chunk: a text right after a text extends it, anything else is pushed. */
  method MergeContent(start: seq<Content>, items: seq<Content>) returns (content: seq<Content>)
    ensures content == MergeAll(start, items)
  {
    content := start;
    var j := 0;
    while j < |items|
      invariant 0 <= j <= |items|
      invariant content == MergeAll(start, items[..j])
    {
      var item := items[j];
      ghost var before := content;
      if item.TextContent? && |content| > 0 && content[|content| - 1].TextContent? {
        content := content[..|content| - 1] + [TextContent(content[|content| - 1].text + item.text)];
      } else {
        content := content + [item];
      }
      assert content == MergeOne(before, item);
      assert items[..j + 1][..j] == items[..j];
      j := j + 1;
    }
    assert items[..j] == items;
  }

  // ---- properties of the merge ----

  /** No two text items side by side. */
  predicate NoAdjacentTexts(cs: seq<Content>) {
    forall i :: 0 < i < |cs| ==> !(cs[i - 1].TextContent? && cs[i].TextContent?)
  }

  /** The texts of a content list, concatenated. */
  function AllText(cs: seq<Content>): string {
    FlatMap(TextOf, cs)
  }

  function TextOf(c: Content): string {
    if c.TextContent? then c.text else ""
  }

  function NonTextOf(c: Content): seq<Content> {
    if c.TextContent? then [] else [c]
  }

  /** The items that are not text, in order. */
  function NonTexts(cs: seq<Content>): seq<Content> {
    FlatMap(NonTextOf, cs)
  }

  /** Merging never creates adjacent texts, so a list without them keeps that shape. */
  lemma {:induction false} MergeKeepsTextsApart(content: seq<Content>, items: seq<Content>)
    requires NoAdjacentTexts(content)
    ensures NoAdjacentTexts(MergeAll(content, items))
  {
    if items != [] {
      MergeKeepsTextsApart(content, items[..|items| - 1]);
    }
  }

  /** One merge step keeps all text and all other items, in order. */
  lemma MergeOneKeeps(content: seq<Content>, item: Content)
    ensures AllText(MergeOne(content, item)) == AllText(content) + TextOf(item)
    ensures NonTexts(MergeOne(content, item)) == NonTexts(content) + NonTextOf(item)
  {
    if item.TextContent? && |content| > 0 && content[|content| - 1].TextContent? {
      var init := content[..|content| - 1];
      var last := content[|content| - 1];
      assert content == init + [last];
      FlatMapAppend(TextOf, init, [last]);
      FlatMapAppend(TextOf, init, [TextContent(last.text + item.text)]);
      FlatMapAppend(NonTextOf, init, [last]);
      FlatMapAppend(NonTextOf, init, [TextContent(last.text + item.text)]);
      FlatMapSingle(TextOf, last);
      FlatMapSingle(TextOf, TextContent(last.text + item.text));
      FlatMapSingle(NonTextOf, last);
      FlatMapSingle(NonTextOf, TextContent(last.text + item.text));
    } else {
      FlatMapAppend(TextOf, content, [item]);
      FlatMapAppend(NonTextOf, content, [item]);
      FlatMapSingle(TextOf, item);
      FlatMapSingle(NonTextOf, item);
    }
  }

  /**
   * Merging loses nothing: the text is the old text followed by the incoming
   * text, and the other items are the old ones followed by the incoming ones.
   */
  lemma {:induction false} MergeAllKeeps(content: seq<Content>, items: seq<Content>)
    ensures AllText(MergeAll(content, items)) == AllText(content) + AllText(items)
    ensures NonTexts(MergeAll(content, items)) == NonTexts(content) + NonTexts(items)
  {
    if items != [] {
      var init := items[..|items| - 1];
      var last := items[|items| - 1];
      MergeAllKeeps(content, init);
      MergeOneKeeps(MergeAll(content, init), last);
      assert items == init + [last];
      FlatMapAppend(TextOf, init, [last]);
      FlatMapAppend(NonTextOf, init, [last]);
      FlatMapSingle(TextOf, last);
      FlatMapSingle(NonTextOf, last);
      AppendAssoc(AllText(content), AllText(init), TextOf(last));
      AppendAssoc(NonTexts(content), NonTexts(init), NonTextOf(last));
    }
  }

  /** Merging chunk after chunk is merging their items in one go. */
  lemma {:induction false} MergeAllAppend(content: seq<Content>, a: seq<Content>, b: seq<Content>)
    ensures MergeAll(content, a + b) == MergeAll(MergeAll(content, a), b)
    decreases |b|
  {
    if b == [] {
      assert a + b == a;
    } else {
      var init := b[..|b| - 1];
      assert (a + b)[..|a + b| - 1] == a + init;
      MergeAllAppend(content, a, init);
    }
  }

  function ContentOf(c: StreamChunk): seq<Content> {
    c.content
  }

  function ReasoningOf(c: StreamChunk): string {
    c.reasoningContent
  }

  /**
   * The message after the stream: its reasoning is the old reasoning followed by
   * every chunk's, and its content is the old content merged with every chunk's
   * items in order.
   */
  lemma {:induction false} StreamedIsConcatenation(m: Message, chunks: seq<StreamChunk>)
    ensures Streamed(m, chunks).reasoningContent == m.reasoningContent + FlatMap(ReasoningOf, chunks)
    ensures Streamed(m, chunks).content == MergeAll(m.content, FlatMap(ContentOf, chunks))
    ensures Streamed(m, chunks).(reasoningContent := m.reasoningContent, content := m.content, mcpTool := m.mcpTool) == m
  {
    if chunks != [] {
      var init := chunks[..|chunks| - 1];
      var last := chunks[|chunks| - 1];
      StreamedIsConcatenation(m, init);
      MergeAllAppend(m.content, FlatMap(ContentOf, init), last.content);
      AppendAssoc(m.reasoningContent, FlatMap(ReasoningOf, init), last.reasoningContent);
    }
  }

  /** The tool calls after the stream: those of the last chunk that carried any, or the message's own. */
  lemma {:induction false} StreamedToolCalls(m: Message, chunks: seq<StreamChunk>, i: nat)
    requires i < |chunks| && chunks[i].functionCalls.Some?
    requires forall j :: i < j < |chunks| ==> chunks[j].functionCalls.None?
    ensures Streamed(m, chunks).mcpTool == chunks[i].functionCalls
  {
    if i < |chunks| - 1 {
      StreamedToolCalls(m, chunks[..|chunks| - 1], i);
    }
  }

  lemma {:induction false} StreamedWithoutToolCalls(m: Message, chunks: seq<StreamChunk>)
    requires forall j :: 0 <= j < |chunks| ==> chunks[j].functionCalls.None?
    ensures Streamed(m, chunks).mcpTool == m.mcpTool
  {
    if chunks != [] {
      StreamedWithoutToolCalls(m, chunks[..|chunks| - 1]);
    }
  }

  /**
   * What is sent: one `typing` update per chunk received, then exactly one final
   * message, `error` with one error item pushed after the content so far when the
   * call or the stream failed, `success` otherwise.
   */
  lemma HandledStatus(m: Message, start: Result<seq<StreamChunk>, string>, failure: Option<StreamFailure>)
    ensures var sent := Handled(m, start, failure);
      |sent| >= 1 &&
      (forall k :: 0 <= k < |sent| - 1 ==> sent[k].status == Typing) &&
      (sent[|sent| - 1].status == Failure <==> start.Err? || FailsAt(start.value, failure)) &&
      (sent[|sent| - 1].status == Success <==> start.Ok? && !FailsAt(start.value, failure))
    ensures start.Err? ==> Handled(m, start, failure) == [Failed(m, start.error)]
    ensures start.Ok? ==> |Handled(m, start, failure)| == StopAt(start.value, failure) + 1
    ensures start.Ok? && FailsAt(start.value, failure) ==>
      var last := Handled(m, start, failure)[|Handled(m, start, failure)| - 1];
      var before := Streamed(m, start.value[..failure.value.at]);
      last.content == before.content + [ErrorContent(failure.value.message)]
  {
    if start.Ok? {
      TypingAllTyping(m, start.value, StopAt(start.value, failure));
    }
  }

  lemma {:induction false} TypingAllTyping(m: Message, chunks: seq<StreamChunk>, n: nat)
    requires n <= |chunks|
    ensures forall k :: 0 <= k < n ==> TypingUpdates(m, chunks, n)[k].status == Typing
  {
    if n > 0 {
      TypingAllTyping(m, chunks, n - 1);
    }
  }

  /**
   * With the OpenAI provider, whose deltas carry one text item each, a stream of
   * deltas onto a message without content leaves a single text item: the
   * concatenation of the deltas' texts.
   */
  lemma {:induction false} DeltasMergeIntoOneText(m: Message, deltas: seq<Chunk>)
    requires m.content == [] && deltas != []
    ensures var chunks := seq(|deltas|, k requires 0 <= k < |deltas| => DeltaChunk(deltas[k]));
      Streamed(m, chunks).content == [TextContent(FlatMap(DeltaText, deltas))]
  {
    var chunks := seq(|deltas|, k requires 0 <= k < |deltas| => DeltaChunk(deltas[k]));
    var init := deltas[..|deltas| - 1];
    var last := deltas[|deltas| - 1];
    var initChunks := seq(|init|, k requires 0 <= k < |init| => DeltaChunk(init[k]));
    assert chunks[..|chunks| - 1] == initChunks;
    FlatMapAppend(DeltaText, init, [last]);
    FlatMapSingle(DeltaText, last);
    assert init + [last] == deltas;
    var item := TextContent(DeltaText(last));
    assert chunks[|chunks| - 1] == DeltaChunk(last);
    assert [item][..0] == [];
    if init == [] {
      assert Streamed(m, initChunks) == m;
      assert MergeAll([], [item]) == [item];
    } else {
      DeltasMergeIntoOneText(m, init);
      var before := TextContent(FlatMap(DeltaText, init));
      assert MergeAll([before], [item]) == [TextContent(before.text + item.text)];
    }
  }

  function DeltaText(c: Chunk): string {
    c.content.GetOr("")
  }
}
