# ant-chat core, modelled in Dafny

This project models the bookkeeping core of ant-chat, an Electron chat client that talks to
LLM providers and to MCP (Model Context Protocol) servers, and proves properties of that model.

- **MCP client hub** (`McpClientHub`): a `Hub` class that owns a list of server connections.
  - It reconciles the list against a list of server configs: removals first, then adds, and a
    replace when a config changed.
  - It publishes the tools of connected servers under `serverName___toolName`.
  - It routes `callTool`, with the not-found, disabled and timeout cases.
  - It tears connections down, and keeps the error callbacks.
- **Tool names** (`ToolNames`): joining and splitting namespaced tool names.
- **Update errors** (`UpdateErrors`): the first-match error classifier, the retryable and
  recovery-action tables, `handleError`, the `create*Error` factories and the `withRetry` loop.
- **Update settings** (`UpdateSettings`): the `UpdateConfigStore` class, with shallow-merge
  updates, the skipped version and the "is a check due" rule.
- **Update service** (`UpdateService`): the status machine of the auto-updater, as a class moved
  by updater events and guarded commands.
- **OpenAI provider** (`OpenAiProvider`):
  - the request transforms from canonical messages and MCP tools to the chat-completions format;
  - the streaming loop, as the `OpenAIService` class, which accumulates tool-call fragments by id
    and splits their names apart at the end.
- **Chat service** (`ChatService`): the provider guards, and the loop that folds stream chunks
  into the assistant message and reports it.
- **MCP tool actions** (`McpToolActions`): result normalisation, and the execute-state updates of
  one tool call. Both sit over a message store, modelled as a `MessageStore` class.
- **Shared helpers**:
  - the IPC response envelopes (`IpcEvents`);
  - the MCP config schema as a tagged-union validator (`McpConfigs`);
  - the env/header row conversions, tool filter and add-mode config of the config drawer
    (`McpConfigDrawer`);
  - the `.antchat` import check and `isImageMIME` (`AntFile`).

Supporting modules:

| module | holds |
|---|---|
| `Wrappers` | Option, Result and JavaScript truthiness |
| `Json` | a JSON value type, its JavaScript truthiness and its template-literal text |
| `Strings` | substring search and ASCII lower-casing |
| `Seqs` | a last-element `FlatMap` with its lemmas |
| `ChatTypes` | the message and content types shared by the chat modules |

How things outside the model are represented:

- I/O becomes parameters: the protocol client, the updater library, the database, IPC, the
  clock, `JSON.parse` and the outcome of each remote call.
- Ghost logs record the calls a component makes, so that their order can be stated.

## Model

| member | source | states |
|---|---|---|
| McpClientHub.Lookup | packages/mcp-client-hub/src/mcpClientHub.ts:69 | `connections.find` by name: an entry exactly when the name is present, and it carries that name |
| McpClientHub.IndexOfName | packages/mcp-client-hub/src/mcpClientHub.ts:255 | `findIndex` by name: a valid index holding the name, and none exactly when the name is absent |
| McpClientHub.Filter | packages/mcp-client-hub/src/mcpClientHub.ts:95 | filtering by name drops exactly the given names, only removes entries and never grows the list |
| McpClientHub.MergePathEnv | packages/mcp-client-hub/src/mcpClientHub.ts:278-284 | the result is the host's `Path` (else `PATH`, else ""), then `;` on Windows or `:` elsewhere, then the configured path |
| McpClientHub.ConfiguredPath | packages/mcp-client-hub/src/mcpClientHub.ts:117 | the configured part of `PATH` is the text of the first truthy value of `env.path` and `env.PATH`, of any JSON type, else "" |
| McpClientHub.ConfiguredPathOfStrings | packages/mcp-client-hub/src/mcpClientHub.ts:117 | with string values only, that is the first non-empty string of the two |
| McpClientHub.ConfiguredPathEmpty | packages/mcp-client-hub/src/mcpClientHub.ts:117 | unless the chosen value is an array, the configured part is empty exactly when neither key holds a truthy value |
| McpClientHub.ConfiguredPathOfNonString | packages/mcp-client-hub/src/mcpClientHub.ts:117 | a truthy non-string such as `5` or `true` under `path` is interpolated as "5" or "true", not skipped |
| McpClientHub.ProcessEnv | packages/mcp-client-hub/src/mcpClientHub.ts:112-119 | the child environment keeps every configured key, and `PATH` is the merged path of `env.path \|\| env.PATH \|\| ''` |
| Json.DecimalText | packages/mcp-client-hub/src/mcpClientHub.ts:283 | a number interpolated into the path: non-empty decimal digits, after a `-` when negative |
| Json.DecimalTextRoundTrip | packages/mcp-client-hub/src/mcpClientHub.ts:283 | reading those digits back gives the number |
| Json.TruthyTextNonEmpty | packages/mcp-client-hub/src/mcpClientHub.ts:283 | a truthy value that is not an array never interpolates as the empty string |
| McpClientHub.TransportFor | packages/mcp-client-hub/src/mcpClientHub.ts:101-120 | a transport is built exactly for configs the schema accepts; an sse url that is not a URL makes `new URL` throw |
| McpClientHub.ListedTools | packages/mcp-client-hub/src/mcpClientHub.ts:164-188 | a failed listing yields `[]`; otherwise one normalised tool per listed tool, in order |
| McpClientHub.Contribution | packages/mcp-client-hub/src/mcpClientHub.ts:192-205 | a connection that is not `connected`, or has no cached tools, contributes nothing |
| McpClientHub.AvailableToolsExactly | packages/mcp-client-hub/src/mcpClientHub.ts:190-209 | a tool is in the catalog iff it is some cached tool of a `connected` connection, renamed `serverName + SEPARATOR + toolName` |
| McpClientHub.NewEntry | packages/mcp-client-hub/src/mcpClientHub.ts:142-159 | the pushed entry has the name and config; it stays `connecting` when connect fails, and becomes `connected` with error "" and the listed tools when connect succeeds |
| McpClientHub.StepLog | packages/mcp-client-hub/src/mcpClientHub.ts:67-91 | the I/O of one config step only concerns that config's server name |
| McpClientHub.LookupFilter | packages/mcp-client-hub/src/mcpClientHub.ts:95 | after filtering, a dropped name is absent and any other name finds what it found before |
| McpClientHub.LookupAfterConnect | packages/mcp-client-hub/src/mcpClientHub.ts:94-152 | `connectToServer` changes the entry of its own name only |
| McpClientHub.LookupStep | packages/mcp-client-hub/src/mcpClientHub.ts:67-91 | one step of the second loop leaves other names alone; its own name keeps the old entry if the config is unchanged and otherwise gets a fresh connect |
| McpClientHub.UniqueAfterConnect | packages/mcp-client-hub/src/mcpClientHub.ts:95-152 | filtering out the old entry before the push keeps at most one connection per name |
| McpClientHub.UniqueAddOrReplace | packages/mcp-client-hub/src/mcpClientHub.ts:66-91 | the add-or-replace loop keeps names unique |
| McpClientHub.LookupAddOrReplace | packages/mcp-client-hub/src/mcpClientHub.ts:66-91 | after the loop each configured name holds the `Expected` entry and unconfigured names are untouched |
| McpClientHub.ConfigFor | packages/mcp-client-hub/src/mcpClientHub.ts:67-68 | the config a configured name refers to is one of the configs and has that name |
| McpClientHub.ReconcilePerName | packages/mcp-client-hub/src/mcpClientHub.ts:54-92 | after `updateServerConnections`, a name without a config has no connection; a configured one keeps its entry if the config is equal, else gets the result of its own connect outcome |
| McpClientHub.ReconcileDropsAbsent | packages/mcp-client-hub/src/mcpClientHub.ts:58-64 | no connection remains whose name is absent from the configs |
| McpClientHub.ReconcileConnects | packages/mcp-client-hub/src/mcpClientHub.ts:71-90 | a new or changed server whose connect succeeds ends `connected` with its listed tools, whatever the other servers' outcomes |
| McpClientHub.RemovalLogCloses | packages/mcp-client-hub/src/mcpClientHub.ts:58-64 | the first loop only closes connections, and only those whose names are not configured |
| McpClientHub.AddOrReplaceLogNames | packages/mcp-client-hub/src/mcpClientHub.ts:66-91 | the second loop only touches configured names |
| McpClientHub.RemovalsBeforeAdds | packages/mcp-client-hub/src/mcpClientHub.ts:54-92 | in one reconciliation, every close of a removed server precedes every connect |
| McpClientHub.AddOrReplaceFixed | packages/mcp-client-hub/src/mcpClientHub.ts:80 | when every config equals its stored one, the loop changes nothing and does no I/O |
| McpClientHub.ReconcileIdempotent | packages/mcp-client-hub/src/mcpClientHub.ts:54-92 | reconciling twice with the same configs: the second pass changes nothing and does no I/O, whatever its outcomes would be |
| McpClientHub.RemovalLogEmpty | packages/mcp-client-hub/src/mcpClientHub.ts:58-64 | when all current names are configured, the first loop closes nothing |
| McpClientHub.CallTimeoutMs | packages/mcp-client-hub/src/mcpClientHub.ts:223-232 | the intended timeout: the configured non-zero seconds times 1000, else the 60-second default in ms |
| McpClientHub.TimeoutConvertedTwice | packages/mcp-client-hub/src/mcpClientHub.ts:223-228 | for a stored config without a timeout, the code as written asks for 60 000 000 ms, while the intended timeout is 60 000 ms |
| McpClientHub.CallToolMessages | packages/mcp-client-hub/src/mcpClientHub.ts:213-221 | the not-found and disabled errors differ, and the not-found one names the server |
| McpClientHub.Hub.constructor | packages/mcp-client-hub/src/mcpClientHub.ts:29-33 | a new hub is not initializing and has no connections and no callbacks |
| McpClientHub.Hub.AddErrorCallback | packages/mcp-client-hub/src/mcpClientHub.ts:35-39 | a function is appended; anything else is ignored |
| McpClientHub.Hub.RemoveErrorCallback | packages/mcp-client-hub/src/mcpClientHub.ts:41-46 | only the first identical registration is removed; an absent callback changes nothing |
| McpClientHub.Hub.OnTransportError | packages/mcp-client-hub/src/mcpClientHub.ts:123-132 | every callback is told, in order; that server becomes `disconnected` and nothing else changes |
| McpClientHub.Hub.OnTransportClose | packages/mcp-client-hub/src/mcpClientHub.ts:134-140 | that server becomes `disconnected`; no other entry changes |
| McpClientHub.Hub.MarkDisconnected | packages/mcp-client-hub/src/mcpClientHub.ts:128-131 | only the named entry's status changes, to `disconnected` |
| McpClientHub.Hub.FetchToolsList | packages/mcp-client-hub/src/mcpClientHub.ts:164-188 | an unknown server or a failed listing gives `[]`; otherwise each tool keeps its name, description and `required`, with `properties` defaulting to `{}` |
| McpClientHub.Hub.DeleteConnection | packages/mcp-client-hub/src/mcpClientHub.ts:254-271 | the entry is removed in every case; the result is `true` when the name was absent, else whether closing succeeded; a close is attempted only for a present name |
| McpClientHub.Hub.ConnectToServer | packages/mcp-client-hub/src/mcpClientHub.ts:94-162 | the old entry is filtered out and the new one pushed as `NewEntry` says; it succeeds iff the transport builds and connect succeeds, and otherwise reports the error |
| McpClientHub.Hub.UpdateServerConnections | packages/mcp-client-hub/src/mcpClientHub.ts:54-92 | the connection list becomes `Reconcile` of the old one, and the I/O is `ReconcileLog`, with per-server failures caught |
| McpClientHub.Hub.RemoveUnlisted | packages/mcp-client-hub/src/mcpClientHub.ts:58-64 | the first loop deletes exactly the unconfigured names, closing them in list order |
| McpClientHub.Hub.RemoveIfUnlisted | packages/mcp-client-hub/src/mcpClientHub.ts:59-63 | one iteration deletes the name only when it is not configured |
| McpClientHub.Hub.AddOrReplaceAll | packages/mcp-client-hub/src/mcpClientHub.ts:66-91 | the second loop applies `Step` per config, in order |
| McpClientHub.Hub.AddOrReplaceOne | packages/mcp-client-hub/src/mcpClientHub.ts:67-90 | connect if new, delete and reconnect if changed, nothing if equal |
| McpClientHub.Hub.InitializeMcpServers | packages/mcp-client-hub/src/mcpClientHub.ts:48-52 | a reconciliation, and `isInitializing` is false afterwards |
| McpClientHub.Hub.GetAllAvailableToolsList | packages/mcp-client-hub/src/mcpClientHub.ts:190-209 | the result is the catalog: exactly the renamed tools of `connected` servers, in connection order |
| McpClientHub.Hub.CallTool | packages/mcp-client-hub/src/mcpClientHub.ts:211-252 | not found or disabled fails with the matching message and sends nothing; otherwise sends `tools/call` with the timeout of `CallTimeoutMs`, and returns the error or the result with `content` defaulting to `[]` |
| ToolNames.Join | packages/mcp-client-hub/src/mcpClientHub.ts:199 | the joined name is the server name, the separator, then the tool name |
| ToolNames.SplitJoin | packages/electron/src/main/ai-providers/providers/openai/index.ts:167 | splitting a joined name recovers server and tool when the tool name has no separator and the server name splits cleanly |
| ToolNames.CleanServerName | packages/electron/src/main/ai-providers/providers/openai/index.ts:167 | a server name without the separator and without a trailing `_` splits cleanly |
| ToolNames.TrailingUnderscoreMisSplits | packages/electron/src/main/ai-providers/providers/openai/index.ts:167 | server `x_` with tool `y` joins to `x____y`, which splits into `x` and `_y` |
| ToolNames.JoinInjective | packages/mcp-client-hub/src/mcpClientHub.ts:199 | under the same conditions, distinct (server, tool) pairs get distinct names |
| UpdateErrors.Rank | packages/electron/src/main/utils/updateErrorHandler.ts:49-122 | the priority order lists each type once, with UNKNOWN last |
| UpdateErrors.FirstRuleIsFirst | packages/electron/src/main/utils/updateErrorHandler.ts:49-123 | the if-chain answers `t` iff rule `t` fires and no earlier rule does, or it answers UNKNOWN when no rule fires |
| UpdateErrors.MessageRuleIsTable | packages/electron/src/main/utils/updateErrorHandler.ts:54-120 | each chain of `message.includes` fires iff some keyword of that type occurs in the lower-cased message |
| UpdateErrors.CodeRuleIsTable | packages/electron/src/main/utils/updateErrorHandler.ts:61-108 | each code test fires iff the code is one of that type's exact codes |
| UpdateErrors.RuleIsTable | packages/electron/src/main/utils/updateErrorHandler.ts:54-120 | the rules as written agree with the keyword and code table |
| UpdateErrors.IdentifyIsFirstMatch | packages/electron/src/main/utils/updateErrorHandler.ts:49-123 | `identifyErrorType` answers the first type in NETWORK, DOWNLOAD, SIGNATURE, PERMISSION, DISK_SPACE, INSTALL order whose table matches, else UNKNOWN |
| UpdateErrors.IsRetryable | packages/electron/src/main/utils/updateErrorHandler.ts:295-311 | false exactly for SIGNATURE, PERMISSION and DISK_SPACE |
| UpdateErrors.RecoveryActionsShape | packages/electron/src/main/utils/updateErrorHandler.ts:157-290 | 2 actions for NETWORK, DOWNLOAD, SIGNATURE, PERMISSION and DISK_SPACE, 3 for INSTALL, 4 for UNKNOWN, with their kinds |
| UpdateErrors.RetryOfferedIffRetryable | packages/electron/src/main/utils/updateErrorHandler.ts:157-311 | a retry action is offered iff the type is retryable |
| UpdateErrors.HandleError | packages/electron/src/main/utils/updateErrorHandler.ts:20-44 | the record has the classified type, `retryable` from the table, `message \|\| String(error)`, the code, context, timestamp, actions and user message |
| UpdateErrors.NetworkTimeoutExample | packages/electron/src/main/utils/__tests__/updateErrorHandler.spec.ts:27-35 | "network timeout" is a retryable network error with its message kept and two actions |
| UpdateErrors.CreateErrorAsWritten | packages/electron/src/main/utils/updateErrorHandler.ts:375-402 | the factories as written: the type comes from the message, and the factory's type name is only the context |
| UpdateErrors.CreateError | packages/electron/src/main/utils/updateErrorHandler.ts:375-402 | corrected factory: the error has the factory's type, its retryability and its actions |
| UpdateErrors.InstallFactoryMisclassifies | packages/electron/src/main/utils/updateErrorHandler.ts:400-402 | `createInstallError("install timeout")` is a NETWORK_ERROR as written, and an INSTALL_ERROR when corrected |
| UpdateErrors.StopIndex | packages/electron/src/main/utils/updateErrorHandler.ts:341-367 | the loop stops at the first attempt that succeeds or fails non-retryably, or at the last allowed attempt |
| UpdateErrors.WithRetry | packages/electron/src/main/utils/updateErrorHandler.ts:334-370 | the loop returns `RetryResult` after `RetryCalls` calls, waiting `RETRY_DELAYS[min(k-1, 2)]` before retry `k` |
| UpdateErrors.TryOnce | packages/electron/src/main/utils/updateErrorHandler.ts:342-366 | one attempt stops the loop iff it is the last, succeeds, or fails non-retryably; it then yields the value or the error wrapped as an Error |
| UpdateErrors.RetryCallsBound | packages/electron/src/main/utils/updateErrorHandler.ts:341 | at most `maxRetries + 1` calls; none, and a thrown `null`, for a negative bound |
| UpdateErrors.RetryResultIsLastCall | packages/electron/src/main/utils/updateErrorHandler.ts:339-369 | the outcome is that of the last call made, and every earlier call failed retryably |
| UpdateErrors.NonRetryableStops | packages/electron/src/main/utils/updateErrorHandler.ts:359-363 | a non-retryable failure ends the loop at once and is rethrown |
| UpdateErrors.DelaysBounded | packages/electron/src/main/utils/updateErrorHandler.ts:344 | the delay index stays inside `RETRY_DELAYS`; from the third retry on the delay is 5000 |
| UpdateErrors.SucceedsAtOnce | packages/electron/src/main/utils/__tests__/updateErrorHandler.spec.ts:88-95 | an immediate success makes one call and returns its value |
| UpdateErrors.SucceedsOnThirdCall | packages/electron/src/main/utils/__tests__/updateErrorHandler.spec.ts:97-107 | two retryable failures then a success make three calls and return the success |
| UpdateErrors.PersistentFailure | packages/electron/src/main/utils/__tests__/updateErrorHandler.spec.ts:109-114 | a persistent retryable failure with `maxRetries = 2` makes three calls and throws that error |
| UpdateErrors.PersistentErrorIsRetryable | packages/electron/src/main/utils/__tests__/updateErrorHandler.spec.ts:109-114 | the test's "persistent error" classifies as retryable |
| UpdateSettings.MergeNeutralIdempotent | packages/electron/src/main/store/updateSettings.ts:90-94 | an empty patch changes nothing, and applying a patch twice equals applying it once |
| UpdateSettings.MergeThen | packages/electron/src/main/store/updateSettings.ts:90-94 | two updates equal one update by the combined patch, where the later key wins |
| UpdateSettings.MergeKeepsAbsentKeys | packages/electron/src/main/store/updateSettings.ts:90-94 | keys in the patch take its values, and every other key is unchanged |
| UpdateSettings.SetSkippedThenSkips | packages/electron/src/main/store/updateSettings.ts:114-136 | after `setSkippedVersion(v)`, `shouldSkipVersion(w)` holds iff `w == v` |
| UpdateSettings.ClearedSkipsNothing | packages/electron/src/main/store/updateSettings.ts:121-136 | after `clearSkippedVersion` no non-empty version is skipped |
| UpdateSettings.ClearedKeepsOtherKeys | packages/electron/src/main/store/updateSettings.ts:121-127 | clearing removes only `skippedVersion` |
| UpdateSettings.ShouldCheckRule | packages/electron/src/main/store/updateSettings.ts:141-161 | `autoCheck` off gives false; `startup` gives true; daily means strictly more than 86 400 000 ms since the last check, weekly more than 604 800 000 ms |
| UpdateSettings.ShouldCheckMonotone | packages/electron/src/main/store/updateSettings.ts:151-157 | once a check is due it stays due as time passes |
| UpdateSettings.JustCheckedWaits | packages/electron/src/main/store/updateSettings.ts:106-157 | right after recording a check at `now`, a daily check is not due at `now` |
| UpdateSettings.WeeklyDueIsDailyDue | packages/electron/src/main/store/updateSettings.ts:154-157 | a due weekly check would also be due daily |
| UpdateSettings.UpdateConfigStore.constructor | packages/electron/src/main/store/updateSettings.ts:64-67 | nothing is stored at first |
| UpdateSettings.UpdateConfigStore.GetConfig | packages/electron/src/main/store/updateSettings.ts:82-84 | the stored record, or `DEFAULT_UPDATE_CONFIG` when nothing is stored |
| UpdateSettings.UpdateConfigStore.UpdateConfig | packages/electron/src/main/store/updateSettings.ts:90-94 | the stored record becomes the shallow merge of the current one with the patch |
| UpdateSettings.UpdateConfigStore.ResetConfig | packages/electron/src/main/store/updateSettings.ts:99-101 | the stored record becomes exactly the default |
| UpdateSettings.UpdateConfigStore.SetLastCheckTime | packages/electron/src/main/store/updateSettings.ts:106-108 | only `lastCheckTime` changes |
| UpdateSettings.UpdateConfigStore.SetSkippedVersion | packages/electron/src/main/store/updateSettings.ts:114-116 | only `skippedVersion` changes |
| UpdateSettings.UpdateConfigStore.ClearSkippedVersion | packages/electron/src/main/store/updateSettings.ts:121-127 | writes the record without `skippedVersion` when that is truthy, and writes nothing otherwise |
| UpdateSettings.UpdateConfigStore.ShouldSkipVersion | packages/electron/src/main/store/updateSettings.ts:133-136 | true iff a record is stored whose `skippedVersion` is `version` |
| UpdateSettings.UpdateConfigStore.ShouldCheckForUpdates | packages/electron/src/main/store/updateSettings.ts:141-161 | true with nothing stored (the default is `startup`) and false when `autoCheck` is off; the interval cases are `ShouldCheckRule` |
| UpdateService.InfoFrom | packages/electron/src/main/services/UpdateService.ts:116-122 | the stored info keeps the version; an empty release date becomes now; missing notes become ""; without files, size 0 and url "" |
| UpdateService.StartupTestIsIntervalRule | packages/electron/src/main/services/UpdateService.ts:67 | `config.autoCheck && shouldCheckForUpdates()` equals `shouldCheckForUpdates()` |
| UpdateService.TouchesUpdaterExactly | packages/electron/src/main/services/UpdateService.ts:316-327 | a patch without `includePrerelease` or `autoDownload` cannot change either; a patch with one can |
| UpdateService.UpdateService.constructor | packages/electron/src/main/services/UpdateService.ts:22-34 | starts `idle`, without info, not initialized, with listeners registered |
| UpdateService.UpdateService.EmitStatusUpdate | packages/electron/src/main/services/UpdateService.ts:349-354 | sends status and info to the window, or throws without one |
| UpdateService.UpdateService.Emit | packages/electron/src/main/services/UpdateService.ts:359-375 | the other emitters: send, or throw without a window |
| UpdateService.UpdateService.ConfigureAutoUpdater | packages/electron/src/main/services/UpdateService.ts:83-99 | the updater gets the stored `includePrerelease` and `autoDownload`, and install-on-quit off |
| UpdateService.UpdateService.Initialize | packages/electron/src/main/services/UpdateService.ts:49-78 | a no-op once initialized; otherwise configures the updater, checks only when due and always when due (unless a check is already running), and is initialized iff no step threw: a reported error is rethrown, a found release becomes the info |
| UpdateService.UpdateService.CheckForUpdates | packages/electron/src/main/services/UpdateService.ts:183-200 | while `checking`, answers the current info without a new check; otherwise asks the updater, runs the handler of what it reports, and answers the info held afterwards: the found release, the unchanged info with the last check time recorded, or the updater's error rethrown in status `error` |
| UpdateService.UpdateService.DownloadUpdate | packages/electron/src/main/services/UpdateService.ts:205-222 | fails unless `available`; downloads otherwise; the cancellation token is null afterwards on every path |
| UpdateService.UpdateService.QuitAndInstall | packages/electron/src/main/services/UpdateService.ts:227-240 | fails unless `downloaded`, else asks the updater to install |
| UpdateService.UpdateService.SkipVersion | packages/electron/src/main/services/UpdateService.ts:245-253 | with info: records its version as skipped, goes `idle` and clears the info; without info: nothing |
| UpdateService.UpdateService.CancelDownload | packages/electron/src/main/services/UpdateService.ts:286-304 | from `downloading`: `idle` and no info; from any other status nothing changes |
| UpdateService.UpdateService.UpdateConfig | packages/electron/src/main/services/UpdateService.ts:316-327 | stores and returns the merged record; reconfigures the updater only when the patch names `includePrerelease` or `autoDownload` |
| UpdateService.UpdateService.ResetConfig | packages/electron/src/main/services/UpdateService.ts:332-336 | the default record, copied into the updater |
| UpdateService.UpdateService.Destroy | packages/electron/src/main/services/UpdateService.ts:380-385 | listeners removed and not initialized |
| UpdateService.UpdateService.OnCheckingForUpdate | packages/electron/src/main/services/UpdateService.ts:106-110 | status `checking` |
| UpdateService.UpdateService.OnUpdateAvailable | packages/electron/src/main/services/UpdateService.ts:113-140 | `available` with the new info; without a window the emit throws and nothing more happens; then `idle` if the version is skipped, otherwise a download when auto-download is on |
| UpdateService.UpdateService.OnUpdateNotAvailable | packages/electron/src/main/services/UpdateService.ts:143-148 | `idle`, and only the last check time recorded |
| UpdateService.UpdateService.OnDownloadProgress | packages/electron/src/main/services/UpdateService.ts:151-162 | status `downloading`, and the event's bytes per second, percent, transferred and total sent unchanged; a throw without a window |
| UpdateService.UpdateService.OnUpdateDownloaded | packages/electron/src/main/services/UpdateService.ts:165-169 | status `downloaded`, the info sent |
| UpdateService.UpdateService.OnError | packages/electron/src/main/services/UpdateService.ts:172-177 | status `error`, and the classified error sent |
| OpenAiProvider.ToolCallsOf | packages/electron/src/main/ai-providers/providers/openai/index.ts:61-75 | one `tool_call` per MCP tool call, in order, with the same id, the name `serverName + SEPARATOR + toolName`, and as arguments `tool.args` when truthy, else `{}` |
| OpenAiProvider.Block | packages/electron/src/main/ai-providers/providers/openai/index.ts:89-109 | each canonical message yields at least its own entry |
| OpenAiProvider.TransformMcpTools | packages/electron/src/main/ai-providers/providers/openai/index.ts:114-123 | one function tool per MCP tool, with the same name and schema, and the description defaulting to "" |
| OpenAiProvider.UserContentExactly | packages/electron/src/main/ai-providers/providers/openai/index.ts:31-44 | a text or image part is sent iff the content holds that text or image |
| OpenAiProvider.AssistantContentExactly | packages/electron/src/main/ai-providers/providers/openai/index.ts:46-56 | exactly the texts are sent; errors, images and files are dropped |
| OpenAiProvider.ContentTransformsAppend | packages/electron/src/main/ai-providers/providers/openai/index.ts:31-56 | both content transforms keep order: they distribute over concatenation |
| OpenAiProvider.ToolMessagesExactly | packages/electron/src/main/ai-providers/providers/openai/index.ts:76-83 | a tool message is emitted for a call iff it is `completed` with a result, and it carries that id and result |
| OpenAiProvider.TransformMessagesAt | packages/electron/src/main/ai-providers/providers/openai/index.ts:89-112 | message order is kept: message `i`'s block sits between the output of the messages before and after it |
| OpenAiProvider.BlockShape | packages/electron/src/main/ai-providers/providers/openai/index.ts:92-108 | a user message becomes one user entry; an assistant entry comes first and is immediately followed by its tool messages |
| OpenAiProvider.TransformMessagesLength | packages/electron/src/main/ai-providers/providers/openai/index.ts:89-112 | output length is the number of messages plus the number of completed tool results; no messages give no output |
| OpenAiProvider.MixedConversation | packages/electron/src/main/ai-providers/providers/openai/index.spec.ts:249-319 | user, assistant with a completed tool call, user: four entries, with the tool message right after the assistant |
| OpenAiProvider.Absorb | packages/electron/src/main/ai-providers/providers/openai/index.ts:178-193 | absorbing a fragment keeps the mapping well keyed, keeps every key, and leaves the current id in the mapping |
| OpenAiProvider.AbsorbAll | packages/electron/src/main/ai-providers/providers/openai/index.ts:178-193 | the `forEach` over fragments keeps the mapping well keyed |
| OpenAiProvider.SafeParseJson | packages/electron/src/main/ai-providers/providers/openai/index.ts:215-222 | `{}` when parsing throws, else the parsed value |
| OpenAiProvider.FinishCalls | packages/electron/src/main/ai-providers/providers/openai/index.ts:160-172 | one MCP tool call per accumulated id, in insertion order, built from its concatenated name and arguments |
| OpenAiProvider.Run | packages/electron/src/main/ai-providers/providers/openai/index.ts:157-199 | the stream run keeps the mapping well keyed |
| OpenAiProvider.RunFinish | packages/electron/src/main/ai-providers/providers/openai/index.ts:160-174 | a chunk with a finish reason yields the calls (if any) and ends the stream without changing the mapping |
| OpenAiProvider.RunDelta | packages/electron/src/main/ai-providers/providers/openai/index.ts:176-198 | any other chunk absorbs its fragments, yields one text chunk and continues |
| OpenAiProvider.AbsorbWithoutId | packages/electron/src/main/ai-providers/providers/openai/index.ts:178-193 | a fragment without an id appends its name and arguments to the most recent id and touches no other entry |
| OpenAiProvider.FragmentsConcatenate | packages/electron/src/main/ai-providers/providers/openai/index.ts:178-193 | a call streamed as an id fragment and id-less continuations ends with the concatenation of all name pieces and of all argument pieces |
| OpenAiProvider.ToolCallRoundTrip | packages/electron/src/main/ai-providers/providers/openai/index.ts:165-169 | the name sent for a tool call splits back into its server and tool names when neither holds the separator |
| OpenAiProvider.RunShape | packages/electron/src/main/ai-providers/providers/openai/index.ts:157-199 | at most one yield per chunk; every yield without calls is the text and reasoning of its chunk, with "" for missing parts |
| OpenAiProvider.OpenAIService.constructor | packages/electron/src/main/ai-providers/providers/openai/index.ts:17-18 | an empty mapping and current id "" |
| OpenAiProvider.OpenAIService.AbsorbOne | packages/electron/src/main/ai-providers/providers/openai/index.ts:178-193 | the fields become `Absorb` of the old state |
| OpenAiProvider.OpenAIService.AbsorbFragments | packages/electron/src/main/ai-providers/providers/openai/index.ts:178-193 | the fields become `AbsorbAll` of the old state |
| OpenAiProvider.OpenAIService.SendChatCompletions | packages/electron/src/main/ai-providers/providers/openai/index.ts:157-199 | the yielded chunks and the new fields are `Run` of the old state over the stream |
| McpConfigs.Discriminator | packages/shared/src/schemas/mcpConfigs.ts:8 | names `sse` or `stdio` exactly when `transportType` is that string |
| McpConfigs.ParseMcpConfig | packages/shared/src/schemas/mcpConfigs.ts:36 | an accepted config has a known discriminator and the matching variant, and its sse url is a URL; a rejection lists at least one issue |
| McpConfigs.ParseAddMcpConfig | packages/shared/src/schemas/mcpConfigs.ts:30-33 | acceptance needs a known discriminator; a rejection lists issues |
| McpConfigs.ParseUpdateMcpConfig | packages/shared/src/schemas/mcpConfigs.ts:39-42 | acceptance needs a known discriminator and a string `serverName` |
| McpConfigs.RejectsUnknownTransportType | packages/shared/src/schemas/mcpConfigs.ts:36 | any other `transportType` is rejected by all three schemas; the full schema reports the discriminator issue alone |
| McpConfigs.SseRequiresUrl | packages/shared/src/schemas/mcpConfigs.ts:15 | an sse config without a string url is rejected with 'url 是必填项' |
| McpConfigs.SseRejectsMalformedUrl | packages/shared/src/schemas/mcpConfigs.ts:15 | a url string that is not a URL is rejected with 'url格式错误' |
| McpConfigs.StdioRequiresCommand | packages/shared/src/schemas/mcpConfigs.ts:23 | a stdio config without a string command is rejected with '缺少command参数' |
| McpConfigs.OptionalVariantFields | packages/shared/src/schemas/mcpConfigs.ts:16-25 | `headers`, `args` and `env` may be left out |
| McpConfigs.AddIsFullWithoutStamps | packages/shared/src/schemas/mcpConfigs.ts:30-36 | the Add schema accepts what the full schema accepts once the time stamps are added, with the same fields |
| McpConfigs.UpdateNeedsOnlyNameAndType | packages/shared/src/schemas/mcpConfigs.ts:39-42 | `serverName` plus `transportType` is a valid update, and without `serverName` it is rejected |
| McpConfigs.EncodeRoundTrip | packages/shared/src/schemas/mcpConfigs.ts:3-36 | the JSON form of a config parses back to it exactly when its sse url is a URL |
| McpConfigs.UrlExamples | packages/electron/src/main/db/services/__tests__/mcpConfigs.spec.ts:59-70 | `wwww.baidu.com` is not a URL; an https url is |
| McpToolActions.CreateMcpToolCallResponse | packages/electron/src/renderer/src/store/messages/mcpToolActions.ts:72-89 | `success == !isError`; the first part's text goes to `error` on error and to `data` otherwise, with the other side ""; empty content throws the TypeError |
| McpToolActions.CreateResponseRoundTrip | packages/electron/src/renderer/src/store/messages/mcpToolActions.ts:72-89 | every well-formed result is rebuilt exactly from the response that describes it |
| McpToolActions.CreateResponseReadsFirstPart | packages/electron/src/renderer/src/store/messages/mcpToolActions.ts:82-85 | parts after the first are ignored |
| McpToolActions.ThrownBecomesFailure | packages/electron/src/renderer/src/store/messages/mcpToolActions.ts:39-52 | a thrown error becomes a failed result holding its message |
| McpToolActions.ToolIndex | packages/electron/src/renderer/src/store/messages/mcpToolActions.ts:15 | `findIndex`: the first call with the id, or -1 when none has it |
| McpToolActions.AllCompleted | packages/electron/src/renderer/src/store/messages/mcpToolActions.ts:67 | true iff every tool call is `completed` |
| McpToolActions.WithToolStateOnlyTarget | packages/electron/src/renderer/src/store/messages/mcpToolActions.ts:15-21 | only the target tool's `executeState` changes |
| McpToolActions.SetStateErrors | packages/electron/src/renderer/src/store/messages/mcpToolActions.ts:7-19 | 'message not found', 'message not has mcpTool' and 'mcp tool not found' each arise exactly in their case, in that order; it succeeds otherwise |
| McpToolActions.ExecuteCompletes | packages/electron/src/renderer/src/store/messages/mcpToolActions.ts:62-69 | after a run the tool is `completed`, it is no longer streaming, and `isAllCompleted` holds iff every tool of the stored message is `completed` |
| McpToolActions.ExecuteRecordsThrownError | packages/electron/src/renderer/src/store/messages/mcpToolActions.ts:36-58 | when the call throws, the stored result is a failure with the error's message |
| McpToolActions.ExecuteWritesCallersSnapshot | packages/electron/src/renderer/src/store/messages/mcpToolActions.ts:54-60 | the stored message is the caller's copy with the result written in and the state set to `completed` |
| McpToolActions.ExecuteFailsCleanly | packages/electron/src/renderer/src/store/messages/mcpToolActions.ts:7-28 | if the first state update fails, the error is thrown and nothing changes |
| McpToolActions.ExecuteMissingToolThrows | packages/electron/src/renderer/src/store/messages/mcpToolActions.ts:54-58 | when the stored message has the tool but the caller's copy does not, `findIndex` gives -1 and the write of `.result` throws a TypeError. The stored tool stays `executing`, the conversation stays streaming, and no other message changes |
| McpToolActions.MessageStore.UpdateMessage | packages/electron/src/renderer/src/store/messages/mcpToolActions.ts:23 | the message replaces the stored one with its id |
| McpToolActions.MessageStore.SetMcpToolCallExecuteState | packages/electron/src/renderer/src/store/messages/mcpToolActions.ts:7-24 | writes the message with the new state, or throws the error of `SetStateOutcome` and changes nothing |
| McpToolActions.MessageStore.ExecuteMcpToolAction | packages/electron/src/renderer/src/store/messages/mcpToolActions.ts:26-70 | the result, the messages and the streaming ids are those of `Execute` on the old state. That includes the TypeError thrown by the write at index -1 when the caller's copy lacks the tool (`ExecuteMissingToolThrows`) |
| IpcEvents.CreateIpcResponse | packages/shared/src/ipc-events.ts:4-13 | success iff `success`; a success carries the data; a failure carries `msg ?? ''` |
| IpcEvents.CreateIpcPaginatedResponse | packages/shared/src/ipc-events.ts:15-24 | a success carries the data and `total ?? 0`; a failure carries no data and `msg ?? ''` |
| IpcEvents.CreateErrorIpcResponse | packages/shared/src/ipc-events.ts:26-28 | always a failure, whose message is the string itself or the Error's message |
| IpcEvents.PaginatedExtendsPlain | packages/shared/src/ipc-events.ts:4-24 | without its total, a paginated response is the plain one |
| IpcEvents.ErrorResponseIsFailure | packages/shared/src/ipc-events.ts:9-28 | the error response is the plain failure with that message, and a missing message is "" |
| IpcEvents.FailureDropsData | packages/shared/src/ipc-events.ts:4-13 | a failure never depends on the data, and a success never carries a message |
| ChatService.ChatService.constructor | packages/electron/src/main/ai-providers/services/chat-service.ts:12-13 | no provider is set |
| ChatService.ChatService.InitializeProvider | packages/electron/src/main/ai-providers/services/chat-service.ts:15-30 | 'Provider not found' for an unknown id and 'not support apiMode: ' for an unsupported mode, leaving the provider as it was; otherwise the provider is built from the record |
| ChatService.ChatService.SendChatCompletions | packages/electron/src/main/ai-providers/services/chat-service.ts:32-38 | fails with 'AI provider not set' iff no provider is set |
| ChatService.ChatService.CreateConversationTitle | packages/electron/src/main/ai-providers/services/chat-service.ts:40-46 | the same guard |
| ChatService.OpenStream | packages/electron/src/main/ai-providers/services/chat-service.ts:63-105 | with the initialisation not awaited, any failure to initialise surfaces as 'AI provider not set'; otherwise the provider's stream is returned |
| ChatService.TypingUpdates | packages/electron/src/main/ai-providers/services/chat-service.ts:135-142 | one update per processed chunk |
| ChatService.StopAt | packages/electron/src/main/ai-providers/services/chat-service.ts:107-109 | the stream stops no later than its end |
| ChatService.HandleStream | packages/electron/src/main/ai-providers/services/chat-service.ts:86-156 | the messages sent are `Handled` of the start and the failure |
| ChatService.AbsorbChunk | packages/electron/src/main/ai-providers/services/chat-service.ts:111-132 | the message after one chunk is `Accumulate` of it |
| ChatService.MergeContent | packages/electron/src/main/ai-providers/services/chat-service.ts:116-127 | the loop over one chunk's content items computes `MergeAll`: a text right after a text extends it, anything else is pushed |
| ChatService.MergeKeepsTextsApart | packages/electron/src/main/ai-providers/services/chat-service.ts:116-127 | merging never puts two text items next to each other |
| ChatService.MergeOneKeeps | packages/electron/src/main/ai-providers/services/chat-service.ts:119-126 | one merge step keeps all text and all other items, in order |
| ChatService.MergeAllKeeps | packages/electron/src/main/ai-providers/services/chat-service.ts:116-127 | the merged content's text is the old text plus the items' text, and its other items are the old ones plus the new ones |
| ChatService.MergeAllAppend | packages/electron/src/main/ai-providers/services/chat-service.ts:108-127 | merging chunk by chunk equals merging all their items at once |
| ChatService.StreamedIsConcatenation | packages/electron/src/main/ai-providers/services/chat-service.ts:108-132 | reasoning is the concatenation of the chunks' reasoning, content is the merge of all their items, and no other field changes |
| ChatService.StreamedToolCalls | packages/electron/src/main/ai-providers/services/chat-service.ts:129-132 | `mcpTool` is the tool calls of the last chunk that carried any |
| ChatService.StreamedWithoutToolCalls | packages/electron/src/main/ai-providers/services/chat-service.ts:129-132 | without tool calls in the stream, `mcpTool` is unchanged |
| ChatService.HandledStatus | packages/electron/src/main/ai-providers/services/chat-service.ts:99-156 | a failure to start sends one `error` message with one error item; otherwise one `typing` update per chunk, then one `error` message with the error appended, or the final `success` |
| ChatService.TypingAllTyping | packages/electron/src/main/ai-providers/services/chat-service.ts:135-139 | every per-chunk update has status `typing` |
| ChatService.DeltasMergeIntoOneText | packages/electron/src/main/ai-providers/services/chat-service.ts:116-127 | the text chunks a provider streams merge into a single text item holding all their text |
| McpConfigDrawer.Assign | packages/electron/src/renderer/src/components/MCPManage/McpConfigDrawer.tsx:491 | assigning a key keeps the object well keyed |
| McpConfigDrawer.EnvToObject | packages/electron/src/renderer/src/components/MCPManage/McpConfigDrawer.tsx:487-494 | the object built from rows is well keyed |
| McpConfigDrawer.EnvArrayToObject | packages/electron/src/renderer/src/components/MCPManage/McpConfigDrawer.tsx:487-494 | the `forEach` loop builds `EnvToObject` of the rows, with undefined meaning no rows |
| McpConfigDrawer.ObjectToArray | packages/electron/src/renderer/src/components/MCPManage/McpConfigDrawer.tsx:496-501 | one `{key, value}` per entry, in entry order; undefined gives `[]` |
| McpConfigDrawer.EnvKeys | packages/electron/src/renderer/src/components/MCPManage/McpConfigDrawer.tsx:489-492 | a key is in the object iff it is non-empty and some row has it |
| McpConfigDrawer.EnvLastWins | packages/electron/src/renderer/src/components/MCPManage/McpConfigDrawer.tsx:489-492 | the last row with a key decides its value |
| McpConfigDrawer.EnvRoundTrip | packages/electron/src/renderer/src/components/MCPManage/McpConfigDrawer.tsx:487-501 | `envArrayToObject(objectToArray(o)) == o` when no key of `o` is empty |
| McpConfigDrawer.RowsRoundTrip | packages/electron/src/renderer/src/components/MCPManage/McpConfigDrawer.tsx:487-501 | rows with distinct non-empty keys come back unchanged |
| McpConfigDrawer.DistinctRowsKeys | packages/electron/src/renderer/src/components/MCPManage/McpConfigDrawer.tsx:487-501 | such rows give an object whose keys are the rows' keys, in order |
| McpConfigDrawer.ShowToolsExactly | packages/electron/src/renderer/src/components/MCPManage/McpConfigDrawer.tsx:389 | a tool is shown iff it is listed and the keyword is empty or occurs in its name |
| McpConfigDrawer.ShowToolsKeepsOrder | packages/electron/src/renderer/src/components/MCPManage/McpConfigDrawer.tsx:389 | the filter keeps order: it distributes over concatenation |
| McpConfigDrawer.EmptyKeywordFilterIsIdentity | packages/electron/src/renderer/src/components/MCPManage/McpConfigDrawer.tsx:389 | filtering by "" would also return every item, so the length test only short-cuts |
| McpConfigDrawer.AddModeStdio | packages/electron/src/renderer/src/components/MCPManage/McpConfigDrawer.tsx:98-108 | a stdio form with a name and an icon is accepted, with `command` defaulting to "" and `args` to `[]` |
| McpConfigDrawer.AddModeSseNeedsUrl | packages/electron/src/renderer/src/components/MCPManage/McpConfigDrawer.tsx:109-119 | an sse form without a url submits "" and is rejected with 'url格式错误' |
| McpConfigDrawer.AddModeSse | packages/electron/src/renderer/src/components/MCPManage/McpConfigDrawer.tsx:109-119 | an sse form with a name, an icon and a URL is accepted with that url and its header rows |
| AntFile.Pick | packages/electron/src/renderer/src/utils/file.ts:38 | `pick` keeps exactly the listed keys the parsed object has, and nothing from a non-object |
| AntFile.ParsedKeysAreDefaultKeys | packages/electron/src/renderer/src/utils/file.ts:38 | the parsed record has exactly the default keys; the file's values override the defaults, and other keys are dropped |
| AntFile.ParseAcceptsExactly | packages/electron/src/renderer/src/utils/file.ts:37-44 | accepted iff JSON parsing succeeds and the merged record passes the structure check |
| AntFile.WellFormedFileAccepted | packages/electron/src/renderer/src/utils/file.ts:39-43 | `type 'Ant Chat'`, `version '1'` and an array of conversations are accepted |
| AntFile.NonObjectYieldsDefaults | packages/electron/src/renderer/src/utils/file.ts:38-42 | a non-object file yields the defaults, so it passes iff they do |
| AntFile.ImportChecksName | packages/electron/src/renderer/src/utils/file.ts:25-27 | a name not ending in `.antchat` is refused with '文件格式错误' |
| AntFile.ImportUniformFailure | packages/electron/src/renderer/src/utils/file.ts:29-34 | every parse failure becomes 'antchat文件解析失败～'; a success passes through |
| AntFile.ImageMimeExamples | packages/electron/src/renderer/src/utils/file.ts:81-83 | `image/png` is an image type; `IMAGE/PNG`, `application/pdf` and `image` are not |
| AntFile.ImageMimeFamily | packages/electron/src/renderer/src/utils/file.ts:81-83 | every `image/…` type is an image type |

## Left out

- The protocol client, its transports, the updater library, electron-store, the database, IPC,
  the window emitter, the loggers and `console`: each call into them is a parameter outcome.
  Where the order of calls matters, it is recorded in a ghost log.
- Concurrency: every `async` function runs to completion in sequence. The `await` points
  interleave with nothing.
- Real delays and clocks: `withRetry` reports the delays it would wait. `Date.now()` is a
  parameter.
- `JSON.parse` is a parameter, `None` when it throws. `JSON.stringify` is not modelled: payloads
  carry the values that would be serialised.
- The hub's stored config is the config value itself. Comparing it with `deepEqual(JSON.parse(...))`
  becomes datatype equality.
- Constants defined in files that are not part of this model are assumed:
  - the separator `___`, the value the provider tests expect;
  - `DEFAULT_MCP_TIMEOUT_SECONDS = 60`;
  - `DEFAULT_REQUEST_TIMEOUT_MS` only bounds a listing, so it is not modelled;
  - `createMcpToolCall` is taken to start a call in `await` state with no result;
  - `ANT_CHAT_STRUCTURE` and `AIProviderMapping` are parameters.
- McpConfigs.IsUrl: approximates zod's URL check as "a letter, scheme characters, then `:`".
  zod delegates to the platform's URL parser, which this model does not include.
- Strings.ToLower: lower-cases ASCII only. Non-ASCII letters in error messages are left as they
  are.
- `Object.entries` lists integer-like keys first. Two mappings keep plain insertion order
  instead: the drawer's object, and the provider's id-to-call mapping that
  `OpenAiProvider.FinishCalls` reads, so tool-call ids such as "1" and "0" come out in arrival
  order rather than in ascending numeric order.
- The updater's check is one `UpdateService.CheckReport`: the events it emits while the check is
  awaited, in the order `checking-for-update`, then one of `update-available`,
  `update-not-available` or `error`. On `error` the awaited check also rejects. A handler that
  throws ends the check with that throw.
- `Partial<UpdateConfig>` with a key present but `undefined` is treated as the key being absent.
- The `default:` branch of `shouldCheckForUpdates` is left out: the interval type makes it
  unreachable.
- McpConfigs.McpConfig: `timeout` is an optional whole number of seconds. Two stored values are
  not representable. A null timeout is one: the database column is nullable. In `callTool`,
  `z.number().optional()` rejects null, the catch only logs, and the request goes out with
  60 000 ms. Fractional seconds are the other: `z.number()` accepts 0.5, which is sent as 500 ms.
  Json.JNum likewise holds integers only.
- McpClientHub.Hub.CallTool: sends the corrected timeout `CallTimeoutMs` (the configured seconds,
  else 60 s, converted once). The code as written converts the default twice. For a stored config
  whose timeout is absent or 0 it sends 60 000 000 ms. That value is `CallTimeoutMsAsWritten`,
  recorded under "## Findings".
- The download-progress figures are integers. The updater's fractional `percent` and rate are
  floating point.
- Tool-call response parts are modelled by their text. Image and resource parts are not modelled.
- lodash `pick` of inherited keys, and `apiMode in AIProviderMapping` matching inherited
  properties, are not modelled.
- DB failures of `updateMessage` inside the chat loop are not modelled. Neither is the abort
  signal, except as a failure at a chosen chunk.
- The conversation store behind `addStreamingConversationId` is a set of ids.
- Renderer UI: React state, forms, validation messages shown to the user, and the edit-mode config
  of the drawer are not modelled.
- The rest of the update error record is out of scope: `generateUserMessage`'s text is the
  per-type table, and `details` (stack, original error) is left out.
- The hub's `isWin32` field is the `Host` parameter.
- `createConversationTitle` of the provider and the request options of `sendChatCompletions`
  (model, temperature, tools config) are left out.

## Findings

| source | as written | input that shows it | evidently intended | confidence | as-written member | corrected member |
|---|---|---|---|---|---|---|
| packages/mcp-client-hub/src/mcpClientHub.ts:228 | `timeout = secondsToMs(parsedConfig?.timeout \|\| timeout)`, where `timeout` already holds `secondsToMs(60)` | a stored config without `timeout` (or with 0): `McpClientHub.TimeoutConvertedTwice` gives 60 000 000 ms | the configured seconds, else the 60-second default, converted once (60 000 ms) | medium; not executed | McpClientHub.CallTimeoutMsAsWritten | McpClientHub.CallTimeoutMs |
| packages/electron/src/main/utils/updateErrorHandler.ts:400-402 | `createInstallError(message)` passes 'INSTALL_ERROR' only as the context, so the type comes from the message | `createInstallError("install timeout")` is a NETWORK_ERROR (`UpdateErrors.InstallFactoryMisclassifies`) | each factory yields an error of its own type | medium; not executed | UpdateErrors.CreateErrorAsWritten | UpdateErrors.CreateError |
