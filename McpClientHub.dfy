/**
 * The MCP client hub (packages/mcp-client-hub/src/mcpClientHub.ts): a mutable list
 * of server connections, reconciled against a declarative list of configs, whose
 * tool catalogs are aggregated under namespaced names and through which tool calls
 * are routed.
 *
 * The protocol client and its transports are not modelled: each I/O step is an
 * outcome given as a parameter (`connect` per server name, `closeOk`, the result
 * of `tools/list` and `tools/call`). A ghost action log records the two I/O steps
 * that matter for reconciliation: closing a connection and opening one.
 */
module McpClientHub {
  import opened Wrappers
  import opened Json
  import opened Seqs
  import McpConfigs
  import ToolNames

  type McpConfig = McpConfigs.McpConfig

  /** DEFAULT_MCP_TIMEOUT_SECONDS, defined in mcp-client-hub/src/schema.ts (not part of this model). */
  const DefaultMcpTimeoutSeconds: int := 60

  /** The message of the TypeError `new URL(config.url)` throws for a malformed url. */
  const InvalidUrlMessage: string := "Invalid URL"

  datatype Status = Connecting | Connected | Disconnected

  datatype InputSchema = InputSchema(properties: map<string, Json>, required: Option<seq<string>>)

  /** A tool as cached on a server: `tools/list` output after normalisation. */
  datatype Tool = Tool(name: string, description: Option<string>, inputSchema: InputSchema)

  /** A tool as a server lists it: its input schema may lack `properties`. */
  datatype ListedTool = ListedTool(
    name: string, description: Option<string>,
    properties: Option<map<string, Json>>, required: Option<seq<string>>)

  datatype Transport =
    | ProcessTransport(command: string, args: Option<seq<string>>, env: map<string, Json>)
    | StreamableHttpTransport(url: string, headers: Option<map<string, string>>)

  /** `McpServer`: the observable state of one connection. `config` is the snapshot it was opened with. */
  datatype Server = Server(
    name: string, config: McpConfig, status: Status,
    error: Option<string>, tools: Option<seq<Tool>>, disabled: bool)

  datatype Connection = Connection(server: Server, transport: Transport)

  /** The host's platform and `PATH` variables (`process.env.Path`, `process.env.PATH`). */
  datatype Host = Host(isWin32: bool, path: Option<string>, pathUpper: Option<string>)

  /** Outcome of `client.request({method: 'tools/list'})`. A response without `tools` is `Listed([])`. */
  datatype ListOutcome = ListFails | Listed(tools: seq<ListedTool>)

  /** Outcome of `client.connect(transport)`, and of the tool listing that follows a success. */
  datatype ConnectOutcome = ConnectFails(message: string) | ConnectSucceeds(list: ListOutcome)

  /** Outcome of `client.request({method: 'tools/call'})`. */
  datatype CallOutcome = CallFails(message: string) | CallReturns(isError: Option<bool>, content: Option<seq<string>>)

  /** The `tools/call` request the hub issues. */
  datatype ToolRequest = ToolRequest(name: string, arguments: Option<Json>, timeoutMs: int)

  /** What `callTool` returns: the protocol result with `content` defaulted to `[]`. */
  datatype CallResult = CallResult(isError: Option<bool>, content: seq<string>)

  /** The I/O steps of reconciliation: closing a connection, and calling `client.connect`. */
  datatype Action = Close(name: string) | Open(name: string)

  /** An error observer, identified by reference. */
  datatype Callback = Callback(id: nat)

  /** What `addErrorCallback` may be handed: a function or anything else. */
  datatype CallbackArg = FunctionArg(callback: Callback) | NotAFunction

  // ---------------------------------------------------------------------------
  // Connections as a keyed list
  // ---------------------------------------------------------------------------

  function NameSet(cs: seq<Connection>): set<string> {
    set i | 0 <= i < |cs| :: cs[i].server.name
  }

  lemma NameSetAppend(xs: seq<Connection>, ys: seq<Connection>)
    ensures NameSet(xs + ys) == NameSet(xs) + NameSet(ys)
  {
    forall n | n in NameSet(xs + ys) ensures n in NameSet(xs) + NameSet(ys) {
      var i :| 0 <= i < |xs + ys| && (xs + ys)[i].server.name == n;
      if i >= |xs| {
        assert ys[i - |xs|] == (xs + ys)[i];
      }
    }
    forall n | n in NameSet(xs) + NameSet(ys) ensures n in NameSet(xs + ys) {
      if n in NameSet(xs) {
        var i :| 0 <= i < |xs| && xs[i].server.name == n;
        assert (xs + ys)[i] == xs[i];
      } else {
        var i :| 0 <= i < |ys| && ys[i].server.name == n;
        assert (xs + ys)[|xs| + i] == ys[i];
      }
    }
  }

  function Names(cs: seq<Connection>): (r: seq<string>)
    ensures |r| == |cs| && forall i :: 0 <= i < |cs| ==> r[i] == cs[i].server.name
  {
    seq(|cs|, i requires 0 <= i < |cs| => cs[i].server.name)
  }

  predicate UniqueNames(cs: seq<Connection>) {
    forall i, j :: 0 <= i < j < |cs| ==> cs[i].server.name != cs[j].server.name
  }

  /** `connections.find(conn => conn.server.name === name)`. */
  function Lookup(cs: seq<Connection>, name: string): (r: Option<Connection>)
    ensures r.Some? <==> name in NameSet(cs)
    ensures r.Some? ==> r.value in cs && r.value.server.name == name
  {
    if cs == [] then None
    else if cs[0].server.name == name then Some(cs[0])
    else
      var r := Lookup(cs[1..], name);
      assert NameSet(cs) == {cs[0].server.name} + NameSet(cs[1..]);
      r
  }

  /** `findIndex` by name. */
  function IndexOfName(cs: seq<Connection>, name: string): (r: Option<nat>)
    ensures r.Some? ==> r.value < |cs| && cs[r.value].server.name == name
    ensures r.None? <==> name !in NameSet(cs)
  {
    if cs == [] then None
    else if cs[0].server.name == name then Some(0)
    else
      var r := IndexOfName(cs[1..], name);
      assert NameSet(cs) == {cs[0].server.name} + NameSet(cs[1..]);
      if r.Some? then Some(r.value + 1) else None
  }

  /** The connections whose names are not in `dropped`, in order. */
  function Filter(cs: seq<Connection>, dropped: set<string>): (r: seq<Connection>)
    ensures NameSet(r) == NameSet(cs) - dropped
    ensures |r| <= |cs|
    ensures forall c :: c in r ==> c in cs
  {
    if cs == [] then []
    else
      var head := if cs[0].server.name in dropped then [] else [cs[0]];
      assert cs == [cs[0]] + cs[1..];
      NameSetAppend([cs[0]], cs[1..]);
      NameSetAppend(head, Filter(cs[1..], dropped));
      head + Filter(cs[1..], dropped)
  }

  // ---------------------------------------------------------------------------
  // Transport construction
  // ---------------------------------------------------------------------------

  function SecondsToMs(seconds: int): int {
    seconds * 1000
  }

  /** `mergePathEnv`: the host's own PATH, the platform delimiter, then the configured path. */
  function MergePathEnv(path: string, host: Host): (r: string)
    ensures |r| == |OrElse(host.path, host.pathUpper).GetOr("")| + 1 + |path|
    ensures var builtIn := OrElse(host.path, host.pathUpper).GetOr("");
      r[..|builtIn|] == builtIn && r[|builtIn|..|builtIn| + 1] == (if host.isWin32 then ";" else ":") &&
      r[|builtIn| + 1..] == path
  {
    var builtIn := OrElse(host.path, host.pathUpper).GetOr("");
    builtIn + (if host.isWin32 then ";" else ":") + path
  }

  /** The configured value under `key`, `undefined` (`None`) when absent. */
  function EnvValue(e: map<string, Json>, key: string): Option<Json> {
    if key in e then Some(e[key]) else None
  }

  /**
   * `${config?.env?.path || config?.env?.PATH || ''}` as `mergePathEnv` interpolates it: the
   * first truthy value of the two keys, whatever its JSON type, converted to text.
   */
  function ConfiguredPath(env: Option<map<string, Json>>): (r: string)
    ensures var e := env.GetOr(map[]);
      ("path" in e && IsTruthy(e["path"]) ==> r == TemplateText(e["path"])) &&
      (!("path" in e && IsTruthy(e["path"])) && "PATH" in e && IsTruthy(e["PATH"]) ==> r == TemplateText(e["PATH"])) &&
      (!("path" in e && IsTruthy(e["path"])) && !("PATH" in e && IsTruthy(e["PATH"])) ==> r == "")
  {
    var e := env.GetOr(map[]);
    TemplateText(JsOr(JsOr(EnvValue(e, "path"), EnvValue(e, "PATH")), Some(JStr(""))).value)
  }

  /** With string values only, the rule is "the first non-empty string of `path` and `PATH`". */
  lemma ConfiguredPathOfStrings(e: map<string, Json>)
    requires forall k :: k in e && (k == "path" || k == "PATH") ==> e[k].JStr?
    ensures ConfiguredPath(Some(e)) ==
      OrElse(if "path" in e then Some(e["path"].s) else None, if "PATH" in e then Some(e["PATH"].s) else None).GetOr("")
  {
  }

  /**
   * Unless the chosen value is an array, the configured part of PATH is empty exactly when
   * neither key holds a truthy value.
   */
  lemma ConfiguredPathEmpty(e: map<string, Json>)
    requires forall k :: k in e && (k == "path" || k == "PATH") ==> !e[k].JArr?
    ensures ConfiguredPath(Some(e)) == "" <==>
      !("path" in e && IsTruthy(e["path"])) && !("PATH" in e && IsTruthy(e["PATH"]))
  {
    if "path" in e && IsTruthy(e["path"]) {
      TruthyTextNonEmpty(e["path"]);
    } else if "PATH" in e && IsTruthy(e["PATH"]) {
      TruthyTextNonEmpty(e["PATH"]);
    }
  }

  /** A truthy number or `true` under `path` is interpolated, not skipped: `5` gives "5". */
  lemma ConfiguredPathOfNonString(e: map<string, Json>)
    requires "path" in e && (e["path"] == JNum(5) || e["path"] == JBool(true))
    ensures ConfiguredPath(Some(e)) == (if e["path"].JNum? then "5" else "true")
  {
  }

  /** The child process environment: the configured one, with PATH merged rather than overwritten. */
  function ProcessEnv(env: Option<map<string, Json>>, host: Host): (r: map<string, Json>)
    ensures r.Keys == env.GetOr(map[]).Keys + {"PATH"}
    ensures r["PATH"] == JStr(MergePathEnv(ConfiguredPath(env), host))
    ensures forall k :: k in env.GetOr(map[]) && k != "PATH" ==> r[k] == env.GetOr(map[])[k]
  {
    env.GetOr(map[])["PATH" := JStr(MergePathEnv(ConfiguredPath(env), host))]
  }

  /** The transport built for a config; None where `new URL(config.url)` throws. */
  function TransportFor(config: McpConfig, host: Host): (r: Option<Transport>)
    ensures r.Some? <==> McpConfigs.WellFormed(config)
  {
    match config.transport
    case Sse(url, headers) =>
      if McpConfigs.IsUrl(url) then Some(StreamableHttpTransport(url, headers)) else None
    case Stdio(command, args, env) => Some(ProcessTransport(command, args, ProcessEnv(env, host)))
  }

  // ---------------------------------------------------------------------------
  // Tool lists
  // ---------------------------------------------------------------------------

  function NormalizeTool(t: ListedTool): Tool {
    Tool(t.name, t.description, InputSchema(t.properties.GetOr(map[]), t.required))
  }

  /** `fetchToolsList` for a known server: normalised tools, or `[]` when listing fails. */
  function ListedTools(list: ListOutcome): (r: seq<Tool>)
    ensures list.ListFails? ==> r == []
    ensures list.Listed? ==> |r| == |list.tools|
    ensures list.Listed? ==> forall i :: 0 <= i < |r| ==> r[i] == NormalizeTool(list.tools[i])
  {
    match list
    case ListFails => []
    case Listed(ts) => seq(|ts|, i requires 0 <= i < |ts| => NormalizeTool(ts[i]))
  }

  /** A cached tool as the catalog shows it: renamed `serverName + SEPARATOR + toolName`. */
  function Namespaced(serverName: string, t: Tool): Tool {
    Tool(ToolNames.Join(serverName, t.name), t.description, t.inputSchema)
  }

  /** What one connection contributes to the catalog: its cached tools, only when `connected`. */
  function Contribution(c: Connection): (r: seq<Tool>)
    ensures c.server.status != Connected || c.server.tools.None? ==> r == []
  {
    if c.server.status == Connected && c.server.tools.Some? then
      seq(|c.server.tools.value|, j requires 0 <= j < |c.server.tools.value| =>
        Namespaced(c.server.name, c.server.tools.value[j]))
    else []
  }

  /** The aggregated catalog, in connection order. */
  function AvailableTools(cs: seq<Connection>): seq<Tool> {
    if cs == [] then [] else AvailableTools(cs[..|cs| - 1]) + Contribution(cs[|cs| - 1])
  }

  /** A tool comes from connection `i`, tool `j`. */
  predicate ToolFrom(cs: seq<Connection>, t: Tool, i: int, j: int) {
    0 <= i < |cs| && cs[i].server.status == Connected && cs[i].server.tools.Some? &&
    0 <= j < |cs[i].server.tools.value| && t == Namespaced(cs[i].server.name, cs[i].server.tools.value[j])
  }

  /**
   * The catalog holds exactly the renamed cached tools of `connected` connections:
   * a `connecting` or `disconnected` connection contributes nothing.
   */
  lemma {:induction false} AvailableToolsExactly(cs: seq<Connection>, t: Tool)
    ensures t in AvailableTools(cs) <==> exists i, j :: ToolFrom(cs, t, i, j)
  {
    if cs != [] {
      var init := cs[..|cs| - 1];
      AvailableToolsExactly(init, t);
      assert t in AvailableTools(cs) <==> t in AvailableTools(init) || t in Contribution(cs[|cs| - 1]);
      LastContribution(cs, t, |cs| - 1);
      if exists i, j :: ToolFrom(init, t, i, j) {
        var i, j :| ToolFrom(init, t, i, j);
        assert ToolFrom(cs, t, i, j);
      }
      if exists i, j :: ToolFrom(cs, t, i, j) && i < |cs| - 1 {
        var i, j :| ToolFrom(cs, t, i, j) && i < |cs| - 1;
        assert ToolFrom(init, t, i, j);
      }
    }
  }

  /** The last connection's contribution is its renamed tools, when it is `connected`. */
  lemma LastContribution(cs: seq<Connection>, t: Tool, k: int)
    requires k == |cs| - 1 >= 0
    ensures t in Contribution(cs[k]) <==> exists j :: ToolFrom(cs, t, k, j)
  {
    if t in Contribution(cs[k]) {
      var j :| 0 <= j < |Contribution(cs[k])| && Contribution(cs[k])[j] == t;
      assert ToolFrom(cs, t, k, j);
    }
    if exists j :: ToolFrom(cs, t, k, j) {
      var j :| ToolFrom(cs, t, k, j);
      assert Contribution(cs[k])[j] == t;
    }
  }

  // ---------------------------------------------------------------------------
  // Connecting and reconciling, as functions of the connection list
  // ---------------------------------------------------------------------------

  /** The entry `connectToServer` leaves behind: none if the transport cannot be built. */
  function NewEntry(name: string, config: McpConfig, host: Host, outcome: ConnectOutcome): (r: Option<Connection>)
    ensures r.Some? <==> McpConfigs.WellFormed(config)
    ensures r.Some? ==> r.value.server.name == name && r.value.server.config == config && !r.value.server.disabled
    ensures r.Some? && outcome.ConnectFails? ==> r.value.server.status == Connecting
    ensures r.Some? && outcome.ConnectSucceeds? ==>
      r.value.server.status == Connected && r.value.server.error == Some("") &&
      r.value.server.tools == Some(ListedTools(outcome.list))
  {
    match TransportFor(config, host)
    case None => None
    case Some(t) =>
      match outcome
      case ConnectFails(_) => Some(Connection(Server(name, config, Connecting, None, None, false), t))
      case ConnectSucceeds(list) =>
        Some(Connection(Server(name, config, Connected, Some(""), Some(ListedTools(list)), false), t))
  }

  /** The list after `connectToServer`: the old entry filtered out, the new one (if any) pushed. */
  function AfterConnect(cs: seq<Connection>, name: string, config: McpConfig, host: Host, outcome: ConnectOutcome): seq<Connection> {
    var e := NewEntry(name, config, host, outcome);
    Filter(cs, {name}) + (if e.Some? then [e.value] else [])
  }

  /** Whether `connectToServer` reaches `client.connect`. */
  function ConnectLog(name: string, config: McpConfig): seq<Action> {
    if McpConfigs.WellFormed(config) then [Open(name)] else []
  }

  /** The second loop's work for one config: connect if new, replace if changed, nothing if equal. */
  function Step(cs: seq<Connection>, config: McpConfig, host: Host, connect: string -> ConnectOutcome): seq<Connection> {
    var name := config.serverName;
    match Lookup(cs, name)
    case None => AfterConnect(cs, name, config, host, connect(name))
    case Some(c) =>
      if c.server.config == config then cs
      else AfterConnect(Filter(cs, {name}), name, config, host, connect(name))
  }

  function StepLog(cs: seq<Connection>, config: McpConfig): (r: seq<Action>)
    ensures forall a :: a in r ==> a.name == config.serverName
  {
    var name := config.serverName;
    match Lookup(cs, name)
    case None => ConnectLog(name, config)
    case Some(c) => if c.server.config == config then [] else [Close(name)] + ConnectLog(name, config)
  }

  function ConfigNames(cfgs: seq<McpConfig>): set<string> {
    set i | 0 <= i < |cfgs| :: cfgs[i].serverName
  }

  predicate UniqueConfigNames(cfgs: seq<McpConfig>) {
    forall i, j :: 0 <= i < j < |cfgs| ==> cfgs[i].serverName != cfgs[j].serverName
  }

  /** The second loop over `cfgs`, in order. */
  function AddOrReplace(cs: seq<Connection>, cfgs: seq<McpConfig>, host: Host, connect: string -> ConnectOutcome): seq<Connection> {
    if cfgs == [] then cs
    else Step(AddOrReplace(cs, cfgs[..|cfgs| - 1], host, connect), cfgs[|cfgs| - 1], host, connect)
  }

  function AddOrReplaceLog(cs: seq<Connection>, cfgs: seq<McpConfig>, host: Host, connect: string -> ConnectOutcome): seq<Action> {
    if cfgs == [] then []
    else
      AddOrReplaceLog(cs, cfgs[..|cfgs| - 1], host, connect) +
      StepLog(AddOrReplace(cs, cfgs[..|cfgs| - 1], host, connect), cfgs[|cfgs| - 1])
  }

  /** The first loop: one `Close` per current name missing from the new configs, in list order. */
  function RemovalLog(names: seq<string>, keep: set<string>): seq<Action> {
    if names == [] then []
    else RemovalLog(names[..|names| - 1], keep) + (if names[|names| - 1] in keep then [] else [Close(names[|names| - 1])])
  }

  /** `updateServerConnections`: removals first, then add or replace per config. */
  function Reconcile(cs: seq<Connection>, cfgs: seq<McpConfig>, host: Host, connect: string -> ConnectOutcome): seq<Connection> {
    AddOrReplace(Filter(cs, NameSet(cs) - ConfigNames(cfgs)), cfgs, host, connect)
  }

  function ReconcileLog(cs: seq<Connection>, cfgs: seq<McpConfig>, host: Host, connect: string -> ConnectOutcome): seq<Action> {
    RemovalLog(Names(cs), ConfigNames(cfgs)) +
    AddOrReplaceLog(Filter(cs, NameSet(cs) - ConfigNames(cfgs)), cfgs, host, connect)
  }

  /** What reconciliation leaves for a configured name: the old entry if its config is unchanged, else a fresh connect. */
  function Expected(previous: Option<Connection>, config: McpConfig, host: Host, outcome: ConnectOutcome): Option<Connection> {
    if previous.Some? && previous.value.server.config == config then previous
    else NewEntry(config.serverName, config, host, outcome)
  }

  // ---- lemmas about the keyed list ----

  lemma {:induction false} FilterAppend(xs: seq<Connection>, ys: seq<Connection>, d: set<string>)
    ensures Filter(xs + ys, d) == Filter(xs, d) + Filter(ys, d)
  {
    if xs != [] {
      var head := if xs[0].server.name in d then [] else [xs[0]];
      assert (xs + ys)[0] == xs[0];
      assert (xs + ys)[1..] == xs[1..] + ys;
      FilterAppend(xs[1..], ys, d);
      calc {
        Filter(xs + ys, d);
        head + Filter(xs[1..] + ys, d);
        head + (Filter(xs[1..], d) + Filter(ys, d));
        (head + Filter(xs[1..], d)) + Filter(ys, d);
        Filter(xs, d) + Filter(ys, d);
      }
    } else {
      assert xs + ys == ys;
    }
  }

  lemma {:induction false} FilterNothing(cs: seq<Connection>, d: set<string>)
    requires NameSet(cs) !! d
    ensures Filter(cs, d) == cs
  {
    if cs != [] {
      assert cs[0].server.name in NameSet(cs);
      assert NameSet(cs[1..]) <= NameSet(cs) by {
        forall i | 0 <= i < |cs[1..]| ensures cs[1..][i].server.name in NameSet(cs) {
          assert cs[1..][i] == cs[i + 1];
        }
      }
      FilterNothing(cs[1..], d);
    }
  }

  lemma {:induction false} FilterFilter(cs: seq<Connection>, a: set<string>, b: set<string>)
    ensures Filter(Filter(cs, a), b) == Filter(cs, a + b)
  {
    if cs != [] {
      var head := if cs[0].server.name in a then [] else [cs[0]];
      FilterAppend(head, Filter(cs[1..], a), b);
      FilterFilter(cs[1..], a, b);
      if head != [] {
        assert Filter(head, b) == (if cs[0].server.name in b then [] else [cs[0]]) by {
          assert head[1..] == [];
        }
      }
    }
  }

  lemma {:induction false} FilterKeepsOrder(cs: seq<Connection>, d: set<string>)
    requires UniqueNames(cs)
    ensures UniqueNames(Filter(cs, d))
  {
    if cs != [] {
      FilterKeepsOrder(cs[1..], d);
      assert UniqueNames(cs[1..]) by {
        forall i, j | 0 <= i < j < |cs[1..]| ensures cs[1..][i].server.name != cs[1..][j].server.name {
          assert cs[1..][i] == cs[i + 1] && cs[1..][j] == cs[j + 1];
        }
      }
      var rest := Filter(cs[1..], d);
      if cs[0].server.name !in d {
        forall k | 0 <= k < |cs[1..]| ensures cs[1..][k].server.name != cs[0].server.name {
          assert cs[1..][k] == cs[k + 1];
        }
        assert cs[0].server.name !in NameSet(rest);
        forall j | 0 <= j < |rest| ensures rest[j].server.name != cs[0].server.name {
          assert rest[j].server.name in NameSet(rest);
        }
      }
    }
  }

  lemma {:induction false} LookupFilter(cs: seq<Connection>, d: set<string>, n: string)
    ensures Lookup(Filter(cs, d), n) == if n in d then None else Lookup(cs, n)
  {
    if cs != [] {
      LookupFilter(cs[1..], d, n);
      var head := if cs[0].server.name in d then [] else [cs[0]];
      LookupAppend(head, Filter(cs[1..], d), n);
      assert [cs[0]][1..] == [];
    }
  }

  lemma {:induction false} LookupAppend(xs: seq<Connection>, ys: seq<Connection>, n: string)
    ensures Lookup(xs + ys, n) == if Lookup(xs, n).Some? then Lookup(xs, n) else Lookup(ys, n)
  {
    if xs != [] {
      assert (xs + ys)[0] == xs[0];
      assert (xs + ys)[1..] == xs[1..] + ys;
      LookupAppend(xs[1..], ys, n);
      if xs[0].server.name != n {
        assert Lookup(xs + ys, n) == Lookup(xs[1..] + ys, n);
        assert Lookup(xs, n) == Lookup(xs[1..], n);
      }
    } else {
      assert xs + ys == ys;
    }
  }

  /** `connectToServer` changes the entry of its own name only. */
  lemma LookupAfterConnect(cs: seq<Connection>, name: string, config: McpConfig, host: Host, outcome: ConnectOutcome, n: string)
    ensures Lookup(AfterConnect(cs, name, config, host, outcome), n) ==
      if n == name then NewEntry(name, config, host, outcome) else Lookup(cs, n)
  {
    var e := NewEntry(name, config, host, outcome);
    LookupFilter(cs, {name}, n);
    LookupAppend(Filter(cs, {name}), if e.Some? then [e.value] else [], n);
  }

  lemma LookupStep(cs: seq<Connection>, config: McpConfig, host: Host, connect: string -> ConnectOutcome, n: string)
    ensures Lookup(Step(cs, config, host, connect), n) ==
      if n == config.serverName then Expected(Lookup(cs, n), config, host, connect(n)) else Lookup(cs, n)
  {
    var name := config.serverName;
    match Lookup(cs, name)
    case None =>
      LookupAfterConnect(cs, name, config, host, connect(name), n);
    case Some(c) =>
      if c.server.config != config {
        LookupAfterConnect(Filter(cs, {name}), name, config, host, connect(name), n);
        LookupFilter(cs, {name}, n);
      }
  }

  lemma UniqueAfterConnect(cs: seq<Connection>, name: string, config: McpConfig, host: Host, outcome: ConnectOutcome)
    requires UniqueNames(cs)
    ensures UniqueNames(AfterConnect(cs, name, config, host, outcome))
  {
    FilterKeepsOrder(cs, {name});
    var f := Filter(cs, {name});
    forall i | 0 <= i < |f| ensures f[i].server.name != name {
      assert f[i].server.name in NameSet(f);
    }
  }

  lemma {:induction false} UniqueAddOrReplace(cs: seq<Connection>, cfgs: seq<McpConfig>, host: Host, connect: string -> ConnectOutcome)
    requires UniqueNames(cs)
    ensures UniqueNames(AddOrReplace(cs, cfgs, host, connect))
  {
    if cfgs != [] {
      var prev := AddOrReplace(cs, cfgs[..|cfgs| - 1], host, connect);
      UniqueAddOrReplace(cs, cfgs[..|cfgs| - 1], host, connect);
      var config := cfgs[|cfgs| - 1];
      var name := config.serverName;
      match Lookup(prev, name)
      case None => UniqueAfterConnect(prev, name, config, host, connect(name));
      case Some(c) =>
        if c.server.config != config {
          FilterKeepsOrder(prev, {name});
          UniqueAfterConnect(Filter(prev, {name}), name, config, host, connect(name));
        }
    }
  }

  /** Every configured name ends up with `Expected`, whatever happens to the other names. */
  lemma {:induction false} LookupAddOrReplace(cs: seq<Connection>, cfgs: seq<McpConfig>, host: Host,
                                              connect: string -> ConnectOutcome, n: string)
    requires UniqueConfigNames(cfgs)
    ensures Lookup(AddOrReplace(cs, cfgs, host, connect), n) ==
      if n in ConfigNames(cfgs)
      then Expected(Lookup(cs, n), ConfigFor(cfgs, n), host, connect(n))
      else Lookup(cs, n)
  {
    if cfgs != [] {
      var init := cfgs[..|cfgs| - 1];
      var last := cfgs[|cfgs| - 1];
      ConfigNamesSnoc(cfgs);
      assert UniqueConfigNames(init);
      LookupAddOrReplace(cs, init, host, connect, n);
      LookupStep(AddOrReplace(cs, init, host, connect), last, host, connect, n);
      if last.serverName == n {
        assert n !in ConfigNames(init);
      }
    }
  }

  lemma ConfigNamesSnoc(cfgs: seq<McpConfig>)
    requires cfgs != []
    ensures ConfigNames(cfgs) == ConfigNames(cfgs[..|cfgs| - 1]) + {cfgs[|cfgs| - 1].serverName}
  {
    var init := cfgs[..|cfgs| - 1];
    forall n | n in ConfigNames(cfgs) ensures n in ConfigNames(init) + {cfgs[|cfgs| - 1].serverName} {
      var k :| 0 <= k < |cfgs| && cfgs[k].serverName == n;
      if k < |cfgs| - 1 {
        assert init[k] == cfgs[k];
      }
    }
    forall n | n in ConfigNames(init) ensures n in ConfigNames(cfgs) {
      var k :| 0 <= k < |init| && init[k].serverName == n;
      assert cfgs[k] == init[k];
    }
  }

  /** The config a unique name refers to. */
  function ConfigFor(cfgs: seq<McpConfig>, n: string): (r: McpConfig)
    requires n in ConfigNames(cfgs)
    ensures r in cfgs && r.serverName == n
  {
    if cfgs[|cfgs| - 1].serverName == n then cfgs[|cfgs| - 1]
    else
      ConfigNamesSnoc(cfgs);
      ConfigFor(cfgs[..|cfgs| - 1], n)
  }

  lemma {:induction false} ConfigForAt(cfgs: seq<McpConfig>, k: nat)
    requires UniqueConfigNames(cfgs) && k < |cfgs|
    ensures ConfigFor(cfgs, cfgs[k].serverName) == cfgs[k]
  {
    assert cfgs[k].serverName in ConfigNames(cfgs);
    if k < |cfgs| - 1 {
      var init := cfgs[..|cfgs| - 1];
      assert init[k] == cfgs[k];
      assert init[k].serverName in ConfigNames(init);
      assert UniqueConfigNames(init);
      ConfigForAt(init, k);
    }
  }

  /**
   * The outcome of reconciliation, name by name, for a config list with unique names:
   * a name not configured is gone; a configured name keeps its old entry when the
   * stored config equals the new one (no reconnect, same tools, same status) and
   * otherwise holds what a fresh connect with that name's own outcome leaves —
   * so one server's failure does not disturb any other.
   */
  lemma ReconcilePerName(cs: seq<Connection>, cfgs: seq<McpConfig>, host: Host,
                         connect: string -> ConnectOutcome, n: string)
    requires UniqueConfigNames(cfgs)
    ensures Lookup(Reconcile(cs, cfgs, host, connect), n) ==
      if n in ConfigNames(cfgs) then Expected(Lookup(cs, n), ConfigFor(cfgs, n), host, connect(n)) else None
  {
    var kept := Filter(cs, NameSet(cs) - ConfigNames(cfgs));
    LookupAddOrReplace(kept, cfgs, host, connect, n);
    LookupFilter(cs, NameSet(cs) - ConfigNames(cfgs), n);
    if n !in ConfigNames(cfgs) && n in NameSet(cs) {
      assert n in NameSet(cs) - ConfigNames(cfgs);
    }
  }

  /** No connection remains whose name is absent from the configs. */
  lemma ReconcileDropsAbsent(cs: seq<Connection>, cfgs: seq<McpConfig>, host: Host,
                             connect: string -> ConnectOutcome)
    requires UniqueConfigNames(cfgs)
    ensures NameSet(Reconcile(cs, cfgs, host, connect)) <= ConfigNames(cfgs)
  {
    forall n | n in NameSet(Reconcile(cs, cfgs, host, connect))
      ensures n in ConfigNames(cfgs)
    {
      ReconcilePerName(cs, cfgs, host, connect, n);
    }
  }

  /**
   * Partial-failure isolation: a configured server whose connect succeeds ends
   * `connected` with its listed tools, whatever the other servers' outcomes.
   */
  lemma ReconcileConnects(cs: seq<Connection>, cfgs: seq<McpConfig>, host: Host,
                          connect: string -> ConnectOutcome, k: nat)
    requires UniqueConfigNames(cfgs) && k < |cfgs|
    requires McpConfigs.WellFormed(cfgs[k]) && connect(cfgs[k].serverName).ConnectSucceeds?
    requires Lookup(cs, cfgs[k].serverName).None? || Lookup(cs, cfgs[k].serverName).value.server.config != cfgs[k]
    ensures var e := Lookup(Reconcile(cs, cfgs, host, connect), cfgs[k].serverName);
      e.Some? && e.value.server.status == Connected &&
      e.value.server.tools == Some(ListedTools(connect(cfgs[k].serverName).list))
  {
    ReconcilePerName(cs, cfgs, host, connect, cfgs[k].serverName);
    ConfigForAt(cfgs, k);
  }

  lemma {:induction false} RemovalLogCloses(names: seq<string>, keep: set<string>)
    ensures forall i :: 0 <= i < |RemovalLog(names, keep)| ==>
      RemovalLog(names, keep)[i].Close? && RemovalLog(names, keep)[i].name !in keep
  {
    if names != [] {
      RemovalLogCloses(names[..|names| - 1], keep);
    }
  }

  lemma {:induction false} AddOrReplaceLogNames(cs: seq<Connection>, cfgs: seq<McpConfig>, host: Host,
                                                connect: string -> ConnectOutcome)
    ensures forall a :: a in AddOrReplaceLog(cs, cfgs, host, connect) ==> a.name in ConfigNames(cfgs)
  {
    if cfgs != [] {
      var init := cfgs[..|cfgs| - 1];
      var prefix := AddOrReplaceLog(cs, init, host, connect);
      var step := StepLog(AddOrReplace(cs, init, host, connect), cfgs[|cfgs| - 1]);
      AddOrReplaceLogNames(cs, init, host, connect);
      ConfigNamesSnoc(cfgs);
      assert AddOrReplaceLog(cs, cfgs, host, connect) == prefix + step;
    }
  }

  /**
   * Removals all happen before any connect: in the log of one reconciliation every
   * `Close` of a name missing from the configs precedes every `Open`.
   */
  lemma RemovalsBeforeAdds(cs: seq<Connection>, cfgs: seq<McpConfig>, host: Host,
                           connect: string -> ConnectOutcome, i: nat, j: nat)
    requires var log := ReconcileLog(cs, cfgs, host, connect);
      i < |log| && j < |log| && log[i].Open? && log[j].Close? && log[j].name !in ConfigNames(cfgs)
    ensures j < i
  {
    var removals := RemovalLog(Names(cs), ConfigNames(cfgs));
    var rest := AddOrReplaceLog(Filter(cs, NameSet(cs) - ConfigNames(cfgs)), cfgs, host, connect);
    var log := ReconcileLog(cs, cfgs, host, connect);
    RemovalLogCloses(Names(cs), ConfigNames(cfgs));
    AddOrReplaceLogNames(Filter(cs, NameSet(cs) - ConfigNames(cfgs)), cfgs, host, connect);


  }

  lemma {:induction false} AddOrReplaceFixed(cs: seq<Connection>, cfgs: seq<McpConfig>, all: seq<McpConfig>,
                                             host: Host, connect: string -> ConnectOutcome)
    requires forall k :: 0 <= k < |cfgs| ==>
      var e := Lookup(cs, cfgs[k].serverName);
      (e.Some? && e.value.server.config == cfgs[k]) || (e.None? && !McpConfigs.WellFormed(cfgs[k]))
    ensures AddOrReplace(cs, cfgs, host, connect) == cs
    ensures AddOrReplaceLog(cs, cfgs, host, connect) == []
  {
    if cfgs != [] {
      var init := cfgs[..|cfgs| - 1];
      assert forall k :: 0 <= k < |init| ==> init[k] == cfgs[k];
      AddOrReplaceFixed(cs, init, all, host, connect);
      var last := cfgs[|cfgs| - 1];
      if Lookup(cs, last.serverName).None? {
        FilterNothing(cs, {last.serverName});
      }
    }
  }

  /**
   * Reconciliation is idempotent: a second pass with the same configs changes
   * nothing and performs no I/O, whatever the outcomes it would meet.
   */
  lemma ReconcileIdempotent(cs: seq<Connection>, cfgs: seq<McpConfig>, host: Host,
                            connect: string -> ConnectOutcome, connect2: string -> ConnectOutcome)
    requires UniqueConfigNames(cfgs)
    ensures var r1 := Reconcile(cs, cfgs, host, connect);
      Reconcile(r1, cfgs, host, connect2) == r1 && ReconcileLog(r1, cfgs, host, connect2) == []
  {
    var r1 := Reconcile(cs, cfgs, host, connect);
    ReconcileDropsAbsent(cs, cfgs, host, connect);
    FilterNothing(r1, NameSet(r1) - ConfigNames(cfgs));
    forall k | 0 <= k < |cfgs|
      ensures var e := Lookup(r1, cfgs[k].serverName);
        (e.Some? && e.value.server.config == cfgs[k]) || (e.None? && !McpConfigs.WellFormed(cfgs[k]))
    {
      ReconcilePerName(cs, cfgs, host, connect, cfgs[k].serverName);
      ConfigForAt(cfgs, k);
    }
    AddOrReplaceFixed(r1, cfgs, cfgs, host, connect2);
    RemovalLogEmpty(Names(r1), ConfigNames(cfgs));
  }

  lemma {:induction false} RemovalLogEmpty(names: seq<string>, keep: set<string>)
    requires forall i :: 0 <= i < |names| ==> names[i] in keep
    ensures RemovalLog(names, keep) == []
  {
    if names != [] {
      RemovalLogEmpty(names[..|names| - 1], keep);
    }
  }

  // ---------------------------------------------------------------------------
  // callTool's timeout
  // ---------------------------------------------------------------------------

  /**
   * The timeout `callTool` passes, as written: `secondsToMs(parsedConfig?.timeout || timeout)`
   * where `timeout` already holds milliseconds, so a config without a timeout (or with 0)
   * converts the default twice.
   */
  function CallTimeoutMsAsWritten(stored: McpConfig): int {
    var fallback := SecondsToMs(DefaultMcpTimeoutSeconds);
    match McpConfigs.ParseMcpConfig(McpConfigs.Encode(stored))
    case Err(_) => fallback
    case Ok(parsed) =>
      if parsed.timeout.Some? && parsed.timeout.value != 0 then SecondsToMs(parsed.timeout.value)
      else SecondsToMs(fallback)
  }

  /** The timeout `callTool` evidently means: the configured seconds, else the default, in ms. */
  function CallTimeoutMs(stored: McpConfig): (ms: int)
    ensures McpConfigs.WellFormed(stored) && stored.timeout.Some? && stored.timeout.value != 0 ==>
      ms == stored.timeout.value * 1000
    ensures !(McpConfigs.WellFormed(stored) && stored.timeout.Some? && stored.timeout.value != 0) ==>
      ms == DefaultMcpTimeoutSeconds * 1000
  {
    McpConfigs.EncodeRoundTrip(stored);
    var fallback := SecondsToMs(DefaultMcpTimeoutSeconds);
    match McpConfigs.ParseMcpConfig(McpConfigs.Encode(stored))
    case Err(_) => fallback
    case Ok(parsed) =>
      if parsed.timeout.Some? && parsed.timeout.value != 0 then SecondsToMs(parsed.timeout.value)
      else fallback
  }

  /** The written timeout of a stored config without a timeout is 60 000 000 ms (about 16.7 hours), not 60 000. */
  lemma TimeoutConvertedTwice(stored: McpConfig)
    requires McpConfigs.WellFormed(stored) && stored.timeout.None?
    ensures CallTimeoutMsAsWritten(stored) == 60_000_000
    ensures CallTimeoutMs(stored) == 60_000
  {
    McpConfigs.EncodeRoundTrip(stored);
  }

  function NotFoundMessage(serverName: string): string {
    "No connection found for server: " + serverName +
    ". Please make sure to use MCP servers available under 'Connected MCP Servers'."
  }

  function DisabledMessage(serverName: string): string {
    "Server \"" + serverName + "\" is disabled and cannot be used"
  }

  /** The two failures of `callTool` are told apart, and the not-found one names the server. */
  lemma CallToolMessages(serverName: string)
    ensures NotFoundMessage(serverName) != DisabledMessage(serverName)
    ensures NotFoundMessage(serverName)[32..32 + |serverName|] == serverName
  {
    assert NotFoundMessage(serverName)[0] == 'N' && DisabledMessage(serverName)[0] == 'S';
  }

  // ---------------------------------------------------------------------------
  // The hub
  // ---------------------------------------------------------------------------

  class Hub {
    var isInitializing: bool
    var connections: seq<Connection>
    var onErrorCallbacks: seq<Callback>
    /** The closes and connects performed so far. */
    ghost var log: seq<Action>

    /** One connection per name; every stored config is one the schema accepts. */
    ghost predicate Valid()
      reads this
    {
      UniqueNames(connections) &&
      forall c :: c in connections ==> McpConfigs.WellFormed(c.server.config)
    }

    constructor ()
      ensures Valid() && !isInitializing && connections == [] && onErrorCallbacks == [] && log == []
    {
      isInitializing := false;
      connections := [];
      onErrorCallbacks := [];
      log := [];
    }

    /** Registers an observer; anything that is not a function is ignored. */
    method AddErrorCallback(arg: CallbackArg)
      modifies this`onErrorCallbacks
      ensures onErrorCallbacks == old(onErrorCallbacks) + (if arg.FunctionArg? then [arg.callback] else [])
    {
      if arg.FunctionArg? {
        onErrorCallbacks := onErrorCallbacks + [arg.callback];
      }
    }

    /** Removes the first registration of `callback`, if any. */
    method RemoveErrorCallback(callback: Callback)
      modifies this`onErrorCallbacks
      ensures callback !in old(onErrorCallbacks) ==> onErrorCallbacks == old(onErrorCallbacks)
      ensures callback in old(onErrorCallbacks) ==>
        exists i :: 0 <= i < |old(onErrorCallbacks)| && old(onErrorCallbacks)[i] == callback &&
          callback !in old(onErrorCallbacks)[..i] &&
          onErrorCallbacks == old(onErrorCallbacks)[..i] + old(onErrorCallbacks)[i + 1..]
      ensures multiset(onErrorCallbacks) == multiset(old(onErrorCallbacks)) - multiset{callback}
    {
      var i := 0;
      while i < |onErrorCallbacks| && onErrorCallbacks[i] != callback
        invariant 0 <= i <= |onErrorCallbacks|
        invariant callback !in onErrorCallbacks[..i]
      {
        i := i + 1;
      }
      if i < |onErrorCallbacks| {
        assert onErrorCallbacks == onErrorCallbacks[..i] + [callback] + onErrorCallbacks[i + 1..];
        onErrorCallbacks := onErrorCallbacks[..i] + onErrorCallbacks[i + 1..];
      } else {
        assert onErrorCallbacks[..i] == onErrorCallbacks;
      }
    }

    /** `transport.onerror`: every observer is told, in order, then that server is `disconnected`. */
    method OnTransportError(name: string) returns (notified: seq<Callback>)
      requires Valid()
      modifies this`connections
      ensures Valid()
      ensures notified == onErrorCallbacks
      ensures NameSet(connections) == NameSet(old(connections)) && |connections| == |old(connections)|
      ensures forall i :: 0 <= i < |connections| ==>
        connections[i] == if old(connections)[i].server.name == name
          then Connection(old(connections)[i].server.(status := Disconnected), old(connections)[i].transport)
          else old(connections)[i]
    {
      notified := onErrorCallbacks;
      MarkDisconnected(name);
    }

    /** `transport.onclose`: that server becomes `disconnected`; no observer is told. */
    method OnTransportClose(name: string)
      requires Valid()
      modifies this`connections
      ensures Valid()
      ensures NameSet(connections) == NameSet(old(connections)) && |connections| == |old(connections)|
      ensures forall i :: 0 <= i < |connections| ==>
        connections[i] == if old(connections)[i].server.name == name
          then Connection(old(connections)[i].server.(status := Disconnected), old(connections)[i].transport)
          else old(connections)[i]
    {
      MarkDisconnected(name);
    }

    method MarkDisconnected(name: string)
      requires Valid()
      modifies this`connections
      ensures Valid()
      ensures NameSet(connections) == NameSet(old(connections)) && |connections| == |old(connections)|
      ensures forall i :: 0 <= i < |connections| ==>
        connections[i] == if old(connections)[i].server.name == name
          then Connection(old(connections)[i].server.(status := Disconnected), old(connections)[i].transport)
          else old(connections)[i]
    {
      var idx := IndexOfName(connections, name);
      if idx.Some? {
        var k := idx.value;
        var c := connections[k];
        connections := connections[k := Connection(c.server.(status := Disconnected), c.transport)];
        assert forall i :: 0 <= i < |connections| ==> connections[i].server.name == old(connections)[i].server.name;
        assert NameSet(connections) == NameSet(old(connections));
      }
    }

    /** `fetchToolsList`: the listed tools, normalised; `[]` on any failure. */
    method FetchToolsList(name: string, list: ListOutcome) returns (tools: seq<Tool>)
      ensures name !in NameSet(connections) || list.ListFails? ==> tools == []
      ensures name in NameSet(connections) && list.Listed? ==>
        |tools| == |list.tools| &&
        forall i :: 0 <= i < |tools| ==>
          tools[i].name == list.tools[i].name && tools[i].description == list.tools[i].description &&
          tools[i].inputSchema.properties == list.tools[i].properties.GetOr(map[]) &&
          tools[i].inputSchema.required == list.tools[i].required
    {
      if Lookup(connections, name).None? {
        return [];
      }
      tools := ListedTools(list);
    }

    /** `deleteConnection`: the entry goes first; `false` only if closing it failed. */
    method DeleteConnection(name: string, closeOk: bool) returns (ok: bool)
      requires Valid()
      modifies this`connections, this`log
      ensures Valid()
      ensures connections == Filter(old(connections), {name})
      ensures name !in NameSet(connections)
      ensures ok == (name !in NameSet(old(connections)) || closeOk)
      ensures log == old(log) + if name in NameSet(old(connections)) then [Close(name)] else []
    {
      var idx := IndexOfName(connections, name);
      if idx.None? {
        FilterNothing(connections, {name});
        return true;
      }
      var k := idx.value;
      RemoveUnique(connections, k);
      FilterKeepsOrder(connections, {name});
      connections := connections[..k] + connections[k + 1..];
      log := log + [Close(name)];
      ok := closeOk;
    }

    /**
     * `connectToServer`: any entry of that name is filtered out; if the transport can be
     * built a `connecting` entry is pushed before `client.connect`, and only a successful
     * connect makes it `connected`, clears its error and caches the listed tools.
     */
    method ConnectToServer(name: string, config: McpConfig, host: Host, outcome: ConnectOutcome)
      returns (r: Result<bool, string>)
      requires Valid()
      modifies this`connections, this`log
      ensures Valid()
      ensures connections == AfterConnect(old(connections), name, config, host, outcome)
      ensures log == old(log) + ConnectLog(name, config)
      ensures r.Ok? <==> McpConfigs.WellFormed(config) && outcome.ConnectSucceeds?
      ensures !McpConfigs.WellFormed(config) ==> r == Err(InvalidUrlMessage)
      ensures McpConfigs.WellFormed(config) && outcome.ConnectFails? ==> r == Err(outcome.message)
    {
      UniqueAfterConnect(connections, name, config, host, outcome);
      var base := Filter(connections, {name});
      connections := base;
      var transport := TransportFor(config, host);
      if transport.None? {
        assert connections + [] == connections;
        return Err(InvalidUrlMessage);
      }
      var pending := Server(name, config, Connecting, None, None, false);
      connections := connections + [Connection(pending, transport.value)];
      log := log + [Open(name)];
      match outcome
      case ConnectFails(message) =>
        r := Err(message);
      case ConnectSucceeds(list) =>
        var k := |connections| - 1;
        var connected := pending.(status := Connected, error := Some(""));
        connections := base + [Connection(connected, transport.value)];
        assert Lookup(connections, name).Some? by {
          assert connections[k].server.name == name;
        }
        var tools := FetchToolsList(name, list);
        assert tools == ListedTools(list);
        var entry := Connection(connected.(tools := Some(tools)), transport.value);
        assert NewEntry(name, config, host, outcome) == Some(entry);
        connections := base + [entry];
        r := Ok(true);
    }

    /** `updateServerConnections`: the list becomes `Reconcile` of the old one; errors are caught per server. */
    method UpdateServerConnections(newServers: seq<McpConfig>, host: Host,
                                   connect: string -> ConnectOutcome, closeOk: string -> bool)
      requires Valid()
      modifies this`connections, this`log
      ensures Valid()
      ensures connections == Reconcile(old(connections), newServers, host, connect)
      ensures log == old(log) + ReconcileLog(old(connections), newServers, host, connect)
    {
      ghost var removals := RemovalLog(Names(connections), ConfigNames(newServers));
      ghost var kept := Filter(connections, NameSet(connections) - ConfigNames(newServers));
      RemoveUnlisted(ConfigNames(newServers), closeOk);
      ghost var adds := AddOrReplaceLog(kept, newServers, host, connect);
      AddOrReplaceAll(newServers, host, connect, closeOk);
      AppendAssoc(old(log), removals, adds);
    }

    /** The first loop of `updateServerConnections`: every current server not in `keep` is deleted. */
    method RemoveUnlisted(keep: set<string>, closeOk: string -> bool)
      requires Valid()
      modifies this`connections, this`log
      ensures Valid()
      ensures connections == Filter(old(connections), NameSet(old(connections)) - keep)
      ensures log == old(log) + RemovalLog(Names(old(connections)), keep)
    {
      var currentNames := Names(connections);
      ghost var start := connections;
      FilterNothing(start, {});
      assert start[..0] == [] && currentNames[..0] == [];
      assert NameSet(start[..0]) - keep == {};
      var i := 0;
      while i < |currentNames|
        invariant 0 <= i <= |currentNames|
        invariant Valid()
        invariant connections == Filter(start, NameSet(start[..i]) - keep)
        invariant log == old(log) + RemovalLog(currentNames[..i], keep)
      {
        RemoveNext(start, currentNames, i, keep, closeOk, old(log));
        i := i + 1;
      }
      assert start[..i] == start;
      assert currentNames[..i] == currentNames;
    }

    /** One round of `RemoveUnlisted`'s loop: the `i`-th starting name is closed unless kept. */
    method RemoveNext(ghost start: seq<Connection>, names: seq<string>, i: nat, keep: set<string>,
                      closeOk: string -> bool, ghost log0: seq<Action>)
      requires Valid() && UniqueNames(start) && names == Names(start) && i < |names|
      requires connections == Filter(start, NameSet(start[..i]) - keep)
      requires log == log0 + RemovalLog(names[..i], keep)
      modifies this`connections, this`log
      ensures Valid()
      ensures connections == Filter(start, NameSet(start[..i + 1]) - keep)
      ensures log == log0 + RemovalLog(names[..i + 1], keep)
    {
      ghost var done := RemovalLog(names[..i], keep);
      var name := names[i];
      assert name == start[i].server.name;
      RemovalLoopStep(start, i, keep);
      RemovalLogSnoc(names, i, keep);
      RemoveIfUnlisted(name, keep, closeOk);
      AppendAssoc(log0, done, if name in keep then [] else [Close(name)]);
    }

    /** One iteration of the first loop, for a name currently connected. */
    method RemoveIfUnlisted(name: string, keep: set<string>, closeOk: string -> bool)
      requires Valid() && name in NameSet(connections)
      modifies this`connections, this`log
      ensures Valid()
      ensures connections == Filter(old(connections), if name in keep then {} else {name})
      ensures log == old(log) + if name in keep then [] else [Close(name)]
    {
      if name !in keep {
        var _ := DeleteConnection(name, closeOk(name));
      } else {
        FilterNothing(connections, {});
      }
    }

    /** The second loop of `updateServerConnections`: connect new servers, replace changed ones. */
    method AddOrReplaceAll(newServers: seq<McpConfig>, host: Host,
                           connect: string -> ConnectOutcome, closeOk: string -> bool)
      requires Valid()
      modifies this`connections, this`log
      ensures Valid()
      ensures connections == AddOrReplace(old(connections), newServers, host, connect)
      ensures log == old(log) + AddOrReplaceLog(old(connections), newServers, host, connect)
    {
      ghost var kept := connections;
      var j := 0;
      while j < |newServers|
        invariant 0 <= j <= |newServers|
        invariant Valid()
        invariant connections == AddOrReplace(kept, newServers[..j], host, connect)
        invariant log == old(log) + AddOrReplaceLog(kept, newServers[..j], host, connect)
      {
        assert newServers[..j + 1][..j] == newServers[..j];
        ghost var done := AddOrReplaceLog(kept, newServers[..j], host, connect);
        ghost var step := StepLog(connections, newServers[j]);
        AddOrReplaceOne(newServers[j], host, connect, closeOk);
        AppendAssoc(old(log), done, step);
        j := j + 1;
      }
      assert newServers[..|newServers|] == newServers;
    }

    /** One iteration of the second loop: connect if new, delete and reconnect if changed. */
    method AddOrReplaceOne(config: McpConfig, host: Host, connect: string -> ConnectOutcome, closeOk: string -> bool)
      requires Valid()
      modifies this`connections, this`log
      ensures Valid()
      ensures connections == Step(old(connections), config, host, connect)
      ensures log == old(log) + StepLog(old(connections), config)
    {
      var name := config.serverName;
      var current := Lookup(connections, name);
      if current.None? {
        var _ := ConnectToServer(name, config, host, connect(name));
      } else if current.value.server.config != config {
        var _ := DeleteConnection(name, closeOk(name));
        var _ := ConnectToServer(name, config, host, connect(name));
        AppendAssoc(old(log), [Close(name)], ConnectLog(name, config));
      }
    }

    /** `initializeMcpServers`: a reconciliation bracketed by the `isInitializing` flag. */
    method InitializeMcpServers(servers: seq<McpConfig>, host: Host,
                                connect: string -> ConnectOutcome, closeOk: string -> bool)
      requires Valid()
      modifies this`connections, this`log, this`isInitializing
      ensures Valid() && !isInitializing
      ensures connections == Reconcile(old(connections), servers, host, connect)
      ensures log == old(log) + ReconcileLog(old(connections), servers, host, connect)
    {
      isInitializing := true;
      UpdateServerConnections(servers, host, connect, closeOk);
      isInitializing := false;
    }

    /** `getAllAvailableToolsList`: the catalog of `connected` servers, in connection order. */
    method GetAllAvailableToolsList() returns (tools: seq<Tool>)
      ensures tools == AvailableTools(connections)
      ensures forall t :: t in tools <==> exists i, j :: ToolFrom(connections, t, i, j)
    {
      tools := [];
      var i := 0;
      while i < |connections|
        invariant 0 <= i <= |connections|
        invariant tools == AvailableTools(connections[..i])
      {
        var c := connections[i];
        if c.server.status == Connected && c.server.tools.Some? {
          var cached := c.server.tools.value;
          var j := 0;
          ghost var base := tools;
          while j < |cached|
            invariant 0 <= j <= |cached|
            invariant tools == base + Contribution(c)[..j]
          {
            tools := tools + [Namespaced(c.server.name, cached[j])];
            assert Contribution(c)[..j + 1] == Contribution(c)[..j] + [Contribution(c)[j]];
            j := j + 1;
          }
          assert Contribution(c)[..j] == Contribution(c);
        }
        assert connections[..i + 1][..i] == connections[..i];
        i := i + 1;
      }
      assert connections[..i] == connections;
      forall t ensures t in tools <==> exists i, j :: ToolFrom(connections, t, i, j) {
        AvailableToolsExactly(connections, t);
      }
    }

    /**
     * `callTool`: fails naming the server when there is no connection, fails distinctly
     * when it is disabled, otherwise issues `tools/call` with the resolved timeout and
     * returns the result with `content` defaulted to `[]`.
     */
    method CallTool(serverName: string, toolName: string, arguments: Option<Json>, outcome: CallOutcome)
      returns (r: Result<CallResult, string>, request: Option<ToolRequest>)
      requires Valid()
      ensures Lookup(connections, serverName).None? ==> r == Err(NotFoundMessage(serverName)) && request.None?
      ensures Lookup(connections, serverName).Some? && Lookup(connections, serverName).value.server.disabled ==>
        r == Err(DisabledMessage(serverName)) && request.None?
      ensures Lookup(connections, serverName).Some? && !Lookup(connections, serverName).value.server.disabled ==>
        var stored := Lookup(connections, serverName).value.server.config;
        request == Some(ToolRequest(toolName, arguments,
          if stored.timeout.Some? && stored.timeout.value != 0 then stored.timeout.value * 1000
          else DefaultMcpTimeoutSeconds * 1000)) &&
        (outcome.CallFails? ==> r == Err(outcome.message)) &&
        (outcome.CallReturns? ==>
           r.Ok? && r.value.isError == outcome.isError && r.value.content == outcome.content.GetOr([]))
    {
      var connection := Lookup(connections, serverName);
      if connection.None? {
        return Err(NotFoundMessage(serverName)), None;
      }
      if connection.value.server.disabled {
        return Err(DisabledMessage(serverName)), None;
      }
      var timeout := CallTimeoutMs(connection.value.server.config);
      request := Some(ToolRequest(toolName, arguments, timeout));
      match outcome
      case CallFails(message) =>
        r := Err(message);
      case CallReturns(isError, content) =>
        r := Ok(CallResult(isError, content.GetOr([])));
    }
  }

  /** One step of the removal loop, on the names seen so far. */
  lemma RemovalStep(cs: seq<Connection>, i: nat, keep: set<string>)
    requires UniqueNames(cs) && i < |cs|
    ensures cs[i].server.name !in NameSet(cs[..i])
    ensures cs[i].server.name in NameSet(cs)
    ensures NameSet(cs[..i + 1]) - keep ==
      (NameSet(cs[..i]) - keep) + (if cs[i].server.name in keep then {} else {cs[i].server.name})
  {
    assert cs[..i + 1] == cs[..i] + [cs[i]];
    NameSetAppend(cs[..i], [cs[i]]);
    assert NameSet([cs[i]]) == {cs[i].server.name};
    var prefix := cs[..i];
    forall k | 0 <= k < |prefix| ensures prefix[k].server.name != cs[i].server.name {
      assert prefix[k] == cs[k];
    }
  }

  /** One pass of the first loop: the name is still connected, and filtering it extends the filtered prefix. */
  lemma RemovalLoopStep(start: seq<Connection>, i: nat, keep: set<string>)
    requires UniqueNames(start) && i < |start|
    ensures start[i].server.name in NameSet(Filter(start, NameSet(start[..i]) - keep))
    ensures Filter(Filter(start, NameSet(start[..i]) - keep), if start[i].server.name in keep then {} else {start[i].server.name}) ==
      Filter(start, NameSet(start[..i + 1]) - keep)
  {
    var name := start[i].server.name;
    RemovalStep(start, i, keep);
    FilterFilter(start, NameSet(start[..i]) - keep, if name in keep then {} else {name});
  }

  lemma RemovalLogSnoc(names: seq<string>, i: nat, keep: set<string>)
    requires i < |names|
    ensures RemovalLog(names[..i + 1], keep) ==
      RemovalLog(names[..i], keep) + if names[i] in keep then [] else [Close(names[i])]
  {
    assert names[..i + 1][..i] == names[..i];
  }

  /** Removing the unique entry at `k` is filtering its name out. */
  lemma {:induction false} RemoveUnique(cs: seq<Connection>, k: nat)
    requires UniqueNames(cs) && k < |cs|
    ensures cs[..k] + cs[k + 1..] == Filter(cs, {cs[k].server.name})
  {
    var name := cs[k].server.name;
    var tail := cs[1..];
    UniqueTail(cs);
    if k == 0 {
      forall i | 0 <= i < |tail| ensures tail[i].server.name != name {
        assert tail[i] == cs[i + 1];
      }
      assert name !in NameSet(tail);
      FilterNothing(tail, {name});
      assert cs[..0] + cs[1..] == tail;
    } else {
      assert tail[k - 1] == cs[k];
      RemoveUnique(tail, k - 1);
      assert cs[0].server.name != name;
      assert Filter(cs, {name}) == [cs[0]] + Filter(tail, {name});
      assert cs[..k] + cs[k + 1..] == [cs[0]] + (tail[..k - 1] + tail[k..]);
    }
  }

  lemma UniqueTail(cs: seq<Connection>)
    requires UniqueNames(cs) && cs != []
    ensures UniqueNames(cs[1..])
  {
    var tail := cs[1..];
    forall i, j | 0 <= i < j < |tail| ensures tail[i].server.name != tail[j].server.name {
      assert tail[i] == cs[i + 1] && tail[j] == cs[j + 1];
    }
  }
}
