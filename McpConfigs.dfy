/**
 * The MCP server configuration schema (packages/shared/src/schemas/mcpConfigs.ts):
 * a base object extended into an `sse` and a `stdio` variant, joined as a union
 * discriminated by `transportType`. The full schema, the Add schema (no time stamps)
 * and the Update schema (everything optional but `serverName` and `transportType`)
 * are three modes of one validator over a parsed JSON object.
 */
module McpConfigs {
  import opened Wrappers
  import opened Json

  type Obj = map<string, Json>

  datatype TransportType = StdioType | SseType

  /** `z.string().optional().nullable()`: absent, `null` or a string. */
  datatype Description = NoDescription | NullDescription | Described(text: string)

  datatype Transport =
    | Stdio(command: string, args: Option<seq<string>>, env: Option<map<string, Json>>)
    | Sse(url: string, headers: Option<map<string, string>>)

  /** A value accepted by `McpConfigSchema`. */
  datatype McpConfig = McpConfig(
    serverName: string,
    icon: string,
    description: Description,
    timeout: Option<int>,
    createdAt: int,
    updatedAt: int,
    transport: Transport)

  /** A value accepted by `AddMcpConfigSchema`: the full schema without the time stamps. */
  datatype AddMcpConfig = AddMcpConfig(
    serverName: string,
    icon: string,
    description: Description,
    timeout: Option<int>,
    transport: Transport)

  datatype TransportUpdate =
    | StdioUpdate(command: Option<string>, args: Option<seq<string>>, env: Option<map<string, Json>>)
    | SseUpdate(url: Option<string>, headers: Option<map<string, string>>)

  /** A value accepted by `UpdateMcpConfigSchema`. */
  datatype UpdateMcpConfig = UpdateMcpConfig(
    serverName: string,
    icon: Option<string>,
    description: Description,
    timeout: Option<int>,
    createdAt: Option<int>,
    updatedAt: Option<int>,
    transport: TransportUpdate)

  /** One validation issue: the offending key and the message zod reports for it. */
  datatype Issue = Issue(path: string, message: string)

  datatype Mode = Full | Add | Update

  const ServerNameMessage: string := "serverName 是必填项"
  const UrlRequiredMessage: string := "url 是必填项"
  const UrlFormatMessage: string := "url格式错误"
  const CommandMessage: string := "缺少command参数"
  const RequiredMessage: string := "Required"
  const DiscriminatorMessage: string := "Invalid discriminator value. Expected 'sse' | 'stdio'"

  predicate IsAlpha(c: char) {
    ('a' <= c <= 'z') || ('A' <= c <= 'Z')
  }

  predicate IsSchemeChar(c: char) {
    IsAlpha(c) || ('0' <= c <= '9') || c == '+' || c == '-' || c == '.'
  }

  /**
   * zod's `.url()` accepts what `new URL(s)` parses. Approximated here by the
   * absolute-URL prefix: a scheme (a letter, then letters, digits, `+`, `-`, `.`)
   * followed by `:`.
   */
  predicate IsUrl(s: string) {
    exists i :: 1 <= i < |s| && s[i] == ':' && IsAlpha(s[0]) &&
      forall j :: 1 <= j < i ==> IsSchemeChar(s[j])
  }

  /** The `transportType` discriminator, if it names one of the two variants. */
  function Discriminator(obj: Obj): (t: Option<TransportType>)
    ensures t == Some(SseType) <==> "transportType" in obj && obj["transportType"] == JStr("sse")
    ensures t == Some(StdioType) <==> "transportType" in obj && obj["transportType"] == JStr("stdio")
  {
    if "transportType" !in obj then None
    else if obj["transportType"] == JStr("sse") then Some(SseType)
    else if obj["transportType"] == JStr("stdio") then Some(StdioType)
    else None
  }

  // ---- per-field checks, in the schema's key order ----

  function StringIssues(obj: Obj, key: string, required: bool, requiredMsg: string, typeMsg: string): seq<Issue> {
    if key !in obj then (if required then [Issue(key, requiredMsg)] else [])
    else if obj[key].JStr? then []
    else [Issue(key, typeMsg)]
  }

  function NumberIssues(obj: Obj, key: string, required: bool): seq<Issue> {
    if key !in obj then (if required then [Issue(key, RequiredMessage)] else [])
    else if obj[key].JNum? then []
    else [Issue(key, "Expected number")]
  }

  function DescriptionIssues(obj: Obj): seq<Issue> {
    if "description" !in obj || obj["description"].JNull? || obj["description"].JStr? then []
    else [Issue("description", "Expected string")]
  }

  function UrlIssues(obj: Obj, required: bool): seq<Issue> {
    if "url" !in obj then (if required then [Issue("url", UrlRequiredMessage)] else [])
    else if !obj["url"].JStr? then [Issue("url", UrlRequiredMessage)]
    else if IsUrl(obj["url"].s) then []
    else [Issue("url", UrlFormatMessage)]
  }

  function HeadersIssues(obj: Obj): seq<Issue> {
    if "headers" !in obj || IsStringRecord(obj["headers"]) then []
    else [Issue("headers", "Expected record of strings")]
  }

  function ArgsIssues(obj: Obj): seq<Issue> {
    if "args" !in obj || IsStringArray(obj["args"]) then []
    else [Issue("args", "Expected array of strings")]
  }

  function EnvIssues(obj: Obj): seq<Issue> {
    if "env" !in obj || obj["env"].JObj? then []
    else [Issue("env", "Expected object")]
  }

  /** Issues of the base object's keys (the discriminator is checked separately). */
  function BaseIssues(obj: Obj, mode: Mode): seq<Issue> {
    (if mode == Update then StringIssues(obj, "serverName", true, RequiredMessage, "Expected string")
     else StringIssues(obj, "serverName", true, ServerNameMessage, ServerNameMessage))
    + StringIssues(obj, "icon", mode != Update, RequiredMessage, "Expected string")
    + DescriptionIssues(obj)
    + NumberIssues(obj, "timeout", false)
    + (if mode == Add then [] else NumberIssues(obj, "createdAt", mode == Full) + NumberIssues(obj, "updatedAt", mode == Full))
  }

  /** Issues of the keys the chosen variant adds. */
  function VariantIssues(obj: Obj, t: TransportType, mode: Mode): seq<Issue> {
    match t
    case SseType => UrlIssues(obj, mode != Update) + HeadersIssues(obj)
    case StdioType =>
      StringIssues(obj, "command", mode != Update, CommandMessage, CommandMessage) + ArgsIssues(obj) + EnvIssues(obj)
  }

  function AllIssues(obj: Obj, t: TransportType, mode: Mode): seq<Issue> {
    BaseIssues(obj, mode) + VariantIssues(obj, t, mode)
  }

  // ---- readers, usable once the checks found nothing ----

  function OptString(obj: Obj, key: string): Option<string>
    requires key in obj ==> obj[key].JStr?
  {
    if key in obj then Some(obj[key].s) else None
  }

  function OptNumber(obj: Obj, key: string): Option<int>
    requires key in obj ==> obj[key].JNum?
  {
    if key in obj then Some(obj[key].n) else None
  }

  function DescriptionOf(obj: Obj): Description
    requires DescriptionIssues(obj) == []
  {
    if "description" !in obj then NoDescription
    else if obj["description"].JNull? then NullDescription
    else Described(obj["description"].s)
  }

  function ArgsOf(obj: Obj): Option<seq<string>>
    requires ArgsIssues(obj) == []
  {
    if "args" in obj then Some(StringsOf(obj["args"])) else None
  }

  function HeadersOf(obj: Obj): Option<map<string, string>>
    requires HeadersIssues(obj) == []
  {
    if "headers" in obj then Some(StringMapOf(obj["headers"])) else None
  }

  function EnvOf(obj: Obj): Option<map<string, Json>>
    requires EnvIssues(obj) == []
  {
    if "env" in obj then Some(obj["env"].fields) else None
  }

  function TransportOf(obj: Obj, t: TransportType): Transport
    requires VariantIssues(obj, t, Full) == []
  {
    match t
    case SseType => Sse(obj["url"].s, HeadersOf(obj))
    case StdioType => Stdio(obj["command"].s, ArgsOf(obj), EnvOf(obj))
  }

  function TransportUpdateOf(obj: Obj, t: TransportType): TransportUpdate
    requires VariantIssues(obj, t, Update) == []
  {
    match t
    case SseType => SseUpdate(OptString(obj, "url"), HeadersOf(obj))
    case StdioType => StdioUpdate(OptString(obj, "command"), ArgsOf(obj), EnvOf(obj))
  }

  // ---- the three schemas ----

  /** `McpConfigSchema.parse`: a config, or every issue found, in key order. */
  function ParseMcpConfig(obj: Obj): (r: Result<McpConfig, seq<Issue>>)
    ensures r.Ok? ==> Discriminator(obj).Some?
    ensures r.Ok? ==> (r.value.transport.Sse? <==> Discriminator(obj) == Some(SseType))
    ensures r.Ok? && r.value.transport.Sse? ==> IsUrl(r.value.transport.url)
    ensures r.Err? ==> r.error != []
  {
    match Discriminator(obj)
    case None => Err([Issue("transportType", DiscriminatorMessage)])
    case Some(t) =>
      var issues := AllIssues(obj, t, Full);
      if issues != [] then Err(issues)
      else
        Ok(McpConfig(obj["serverName"].s, obj["icon"].s, DescriptionOf(obj), OptNumber(obj, "timeout"),
                     obj["createdAt"].n, obj["updatedAt"].n, TransportOf(obj, t)))
  }

  /** `AddMcpConfigSchema.parse`: the same union with `createdAt` and `updatedAt` omitted. */
  function ParseAddMcpConfig(obj: Obj): (r: Result<AddMcpConfig, seq<Issue>>)
    ensures r.Ok? ==> Discriminator(obj).Some?
    ensures r.Err? ==> r.error != []
  {
    match Discriminator(obj)
    case None => Err([Issue("transportType", DiscriminatorMessage)])
    case Some(t) =>
      var issues := AllIssues(obj, t, Add);
      if issues != [] then Err(issues)
      else
        assert VariantIssues(obj, t, Full) == VariantIssues(obj, t, Add);
        Ok(AddMcpConfig(obj["serverName"].s, obj["icon"].s, DescriptionOf(obj), OptNumber(obj, "timeout"),
                        TransportOf(obj, t)))
  }

  /** `UpdateMcpConfigSchema.parse`: every key optional except `serverName` and `transportType`. */
  function ParseUpdateMcpConfig(obj: Obj): (r: Result<UpdateMcpConfig, seq<Issue>>)
    ensures r.Ok? ==> Discriminator(obj).Some? && "serverName" in obj && obj["serverName"].JStr?
    ensures r.Err? ==> r.error != []
  {
    match Discriminator(obj)
    case None => Err([Issue("transportType", DiscriminatorMessage)])
    case Some(t) =>
      var issues := AllIssues(obj, t, Update);
      if issues != [] then Err(issues)
      else
        Ok(UpdateMcpConfig(obj["serverName"].s, OptString(obj, "icon"), DescriptionOf(obj),
                           OptNumber(obj, "timeout"), OptNumber(obj, "createdAt"), OptNumber(obj, "updatedAt"),
                           TransportUpdateOf(obj, t)))
  }

  // ---- the JSON form of a config (what `JSON.stringify` writes) ----

  function WithOpt(obj: Obj, key: string, v: Option<Json>): Obj {
    match v
    case None => obj
    case Some(j) => obj[key := j]
  }

  function EncodeDescription(d: Description): Option<Json> {
    match d
    case NoDescription => None
    case NullDescription => Some(JNull)
    case Described(s) => Some(JStr(s))
  }

  function EncodeTransport(obj: Obj, t: Transport): Obj {
    match t
    case Sse(url, headers) =>
      WithOpt(obj["transportType" := JStr("sse")]["url" := JStr(url)], "headers",
              if headers.Some? then Some(FromStringMap(headers.value)) else None)
    case Stdio(command, args, env) =>
      WithOpt(WithOpt(obj["transportType" := JStr("stdio")]["command" := JStr(command)], "args",
                      if args.Some? then Some(FromStrings(args.value)) else None),
              "env", if env.Some? then Some(JObj(env.value)) else None)
  }

  /** The base keys of a config's JSON form. */
  function EncodeBaseKeys(c: McpConfig): Obj {
    var named := WithOpt(WithOpt(map["serverName" := JStr(c.serverName), "icon" := JStr(c.icon)],
                                 "description", EncodeDescription(c.description)),
                         "timeout", if c.timeout.Some? then Some(JNum(c.timeout.value)) else None);
    named["createdAt" := JNum(c.createdAt)]["updatedAt" := JNum(c.updatedAt)]
  }

  /** The JSON form of a config, as `JSON.stringify` writes it and `JSON.parse` reads it back. */
  function Encode(c: McpConfig): Obj {
    EncodeTransport(EncodeBaseKeys(c), c.transport)
  }

  /** What the schema demands beyond the types: an `sse` url must be a URL. */
  predicate WellFormed(c: McpConfig) {
    c.transport.Sse? ==> IsUrl(c.transport.url)
  }

  // ---- properties ----

  /** A config whose `transportType` is neither `stdio` nor `sse` is rejected, with the discriminator issue alone. */
  lemma RejectsUnknownTransportType(obj: Obj)
    requires "transportType" !in obj || obj["transportType"] !in {JStr("stdio"), JStr("sse")}
    ensures ParseMcpConfig(obj) == Err([Issue("transportType", DiscriminatorMessage)])
    ensures ParseAddMcpConfig(obj).Err? && ParseUpdateMcpConfig(obj).Err?
  {
  }

  /** An `sse` config without a string url is rejected with 'url 是必填项'. */
  lemma SseRequiresUrl(obj: Obj)
    requires Discriminator(obj) == Some(SseType)
    requires "url" !in obj || !obj["url"].JStr?
    ensures ParseMcpConfig(obj).Err? && Issue("url", UrlRequiredMessage) in ParseMcpConfig(obj).error
    ensures ParseAddMcpConfig(obj).Err? && Issue("url", UrlRequiredMessage) in ParseAddMcpConfig(obj).error
  {
    var b := BaseIssues(obj, Full);
    assert AllIssues(obj, SseType, Full)[|b|] == Issue("url", UrlRequiredMessage);
    var a := BaseIssues(obj, Add);
    assert AllIssues(obj, SseType, Add)[|a|] == Issue("url", UrlRequiredMessage);
  }

  /** An `sse` config whose url is a string but not a URL is rejected with 'url格式错误'. */
  lemma SseRejectsMalformedUrl(obj: Obj)
    requires Discriminator(obj) == Some(SseType)
    requires "url" in obj && obj["url"].JStr? && !IsUrl(obj["url"].s)
    ensures ParseMcpConfig(obj).Err? && Issue("url", UrlFormatMessage) in ParseMcpConfig(obj).error
    ensures ParseUpdateMcpConfig(obj).Err? && Issue("url", UrlFormatMessage) in ParseUpdateMcpConfig(obj).error
  {
    var b := BaseIssues(obj, Full);
    assert AllIssues(obj, SseType, Full)[|b|] == Issue("url", UrlFormatMessage);
    var u := BaseIssues(obj, Update);
    assert AllIssues(obj, SseType, Update)[|u|] == Issue("url", UrlFormatMessage);
  }

  /** A `stdio` config without a string command is rejected with '缺少command参数'. */
  lemma StdioRequiresCommand(obj: Obj)
    requires Discriminator(obj) == Some(StdioType)
    requires "command" !in obj || !obj["command"].JStr?
    ensures ParseMcpConfig(obj).Err? && Issue("command", CommandMessage) in ParseMcpConfig(obj).error
    ensures ParseAddMcpConfig(obj).Err? && Issue("command", CommandMessage) in ParseAddMcpConfig(obj).error
  {
    var b := BaseIssues(obj, Full);
    assert AllIssues(obj, StdioType, Full)[|b|] == Issue("command", CommandMessage);
    var a := BaseIssues(obj, Add);
    assert AllIssues(obj, StdioType, Add)[|a|] == Issue("command", CommandMessage);
  }

  /** `args`, `env` (stdio) and `headers` (sse) may be left out. */
  lemma OptionalVariantFields(obj: Obj, t: TransportType)
    requires "args" !in obj && "env" !in obj && "headers" !in obj
    requires ParseMcpConfig(obj).Ok? && Discriminator(obj) == Some(t)
    ensures t == StdioType ==> ParseMcpConfig(obj).value.transport == Stdio(obj["command"].s, None, None)
    ensures t == SseType ==> ParseMcpConfig(obj).value.transport == Sse(obj["url"].s, None)
  {
  }

  function WithStamps(a: AddMcpConfig, createdAt: int, updatedAt: int): McpConfig {
    McpConfig(a.serverName, a.icon, a.description, a.timeout, createdAt, updatedAt, a.transport)
  }

  /**
   * The Add schema is the full schema without `createdAt` and `updatedAt`: giving an
   * object any two numeric stamps makes the full schema accept it exactly when the
   * Add schema accepts the object, with the same fields.
   */
  lemma AddIsFullWithoutStamps(obj: Obj, createdAt: int, updatedAt: int)
    ensures var full := obj["createdAt" := JNum(createdAt)]["updatedAt" := JNum(updatedAt)];
      (ParseMcpConfig(full).Ok? <==> ParseAddMcpConfig(obj).Ok?) &&
      (ParseAddMcpConfig(obj).Ok? ==>
         ParseMcpConfig(full).value == WithStamps(ParseAddMcpConfig(obj).value, createdAt, updatedAt))
  {
    var full := obj["createdAt" := JNum(createdAt)]["updatedAt" := JNum(updatedAt)];
    StampedAgrees(obj, createdAt, updatedAt, "transportType");
    StampedAgrees(obj, createdAt, updatedAt, "serverName");
    StampedAgrees(obj, createdAt, updatedAt, "icon");
    StampedAgrees(obj, createdAt, updatedAt, "description");
    StampedAgrees(obj, createdAt, updatedAt, "timeout");
    StampedAgrees(obj, createdAt, updatedAt, "url");
    StampedAgrees(obj, createdAt, updatedAt, "headers");
    StampedAgrees(obj, createdAt, updatedAt, "command");
    StampedAgrees(obj, createdAt, updatedAt, "args");
    StampedAgrees(obj, createdAt, updatedAt, "env");
    assert full["createdAt"] == JNum(createdAt) && full["updatedAt"] == JNum(updatedAt);
    SameIssuesWithStamps(full, obj);
  }

  /** `a` and `b` hold the same value under `k`, or both lack it. */
  predicate AgreeOn(a: Obj, b: Obj, k: string) {
    (k in a <==> k in b) && (k in a ==> a[k] == b[k])
  }

  /** Adding the time stamps leaves every other key as it was. */
  lemma StampedAgrees(obj: Obj, createdAt: int, updatedAt: int, k: string)
    requires k != "createdAt" && k != "updatedAt"
    ensures AgreeOn(obj["createdAt" := JNum(createdAt)]["updatedAt" := JNum(updatedAt)], obj, k)
  {
  }

  /** The Add schema's shared-key issues depend only on the four shared keys. */
  lemma SameBaseIssues(a: Obj, b: Obj)
    requires AgreeOn(a, b, "serverName") && AgreeOn(a, b, "icon")
    requires AgreeOn(a, b, "description") && AgreeOn(a, b, "timeout")
    ensures BaseIssues(a, Add) == BaseIssues(b, Add)
  {
  }

  /** An object with numeric stamps that agrees with `obj` elsewhere passes the full schema as `obj` passes Add. */
  lemma SameIssuesWithStamps(full: Obj, obj: Obj)
    requires AgreeOn(full, obj, "transportType") && AgreeOn(full, obj, "serverName") && AgreeOn(full, obj, "icon")
    requires AgreeOn(full, obj, "description") && AgreeOn(full, obj, "timeout") && AgreeOn(full, obj, "url")
    requires AgreeOn(full, obj, "headers") && AgreeOn(full, obj, "command") && AgreeOn(full, obj, "args")
    requires AgreeOn(full, obj, "env")
    requires "createdAt" in full && full["createdAt"].JNum? && "updatedAt" in full && full["updatedAt"].JNum?
    ensures ParseMcpConfig(full).Ok? <==> ParseAddMcpConfig(obj).Ok?
    ensures ParseAddMcpConfig(obj).Ok? ==>
      ParseMcpConfig(full).value ==
      WithStamps(ParseAddMcpConfig(obj).value, full["createdAt"].n, full["updatedAt"].n)
  {
    assert Discriminator(full) == Discriminator(obj);
    if Discriminator(obj).Some? {
      var t := Discriminator(obj).value;
      SameBaseWithStamps(full, obj);
      SameVariantWithStamps(full, obj, t);
      if AllIssues(obj, t, Add) == [] {
        assert DescriptionOf(full) == DescriptionOf(obj);
        assert OptNumber(full, "timeout") == OptNumber(obj, "timeout");
      }
    }
  }

  lemma SameBaseWithStamps(full: Obj, obj: Obj)
    requires AgreeOn(full, obj, "serverName") && AgreeOn(full, obj, "icon")
    requires AgreeOn(full, obj, "description") && AgreeOn(full, obj, "timeout")
    requires "createdAt" in full && full["createdAt"].JNum? && "updatedAt" in full && full["updatedAt"].JNum?
    ensures BaseIssues(full, Full) == BaseIssues(obj, Add)
  {
    assert NumberIssues(full, "createdAt", true) == [] && NumberIssues(full, "updatedAt", true) == [];
  }

  lemma SameVariantWithStamps(full: Obj, obj: Obj, t: TransportType)
    requires AgreeOn(full, obj, "url") && AgreeOn(full, obj, "headers") && AgreeOn(full, obj, "command")
    requires AgreeOn(full, obj, "args") && AgreeOn(full, obj, "env")
    ensures VariantIssues(full, t, Full) == VariantIssues(obj, t, Add)
    ensures VariantIssues(obj, t, Full) == [] ==> TransportOf(full, t) == TransportOf(obj, t)
  {
  }

  /** The Update schema needs only `serverName` and `transportType`; without `serverName` it rejects. */
  lemma UpdateNeedsOnlyNameAndType(name: string, t: TransportType)
    ensures var tt := if t == SseType then "sse" else "stdio";
      var obj := map["serverName" := JStr(name), "transportType" := JStr(tt)];
      ParseUpdateMcpConfig(obj).Ok? &&
      ParseUpdateMcpConfig(obj).value.serverName == name &&
      ParseUpdateMcpConfig(obj - {"serverName"}).Err?
  {
    var tt := if t == SseType then "sse" else "stdio";
    var obj := map["serverName" := JStr(name), "transportType" := JStr(tt)];
    assert Discriminator(obj) == Some(t);
    assert AllIssues(obj, t, Update) == [];
    var rest := obj - {"serverName"};
    assert Discriminator(rest) == Some(t);
    assert AllIssues(rest, t, Update)[0] == Issue("serverName", RequiredMessage);
  }

  /** What each base key of the encoding holds. */
  lemma EncodeBase(c: McpConfig)
    ensures var obj := Encode(c);
      obj["serverName"] == JStr(c.serverName) && obj["icon"] == JStr(c.icon) &&
      obj["createdAt"] == JNum(c.createdAt) && obj["updatedAt"] == JNum(c.updatedAt) &&
      ("timeout" in obj <==> c.timeout.Some?) && (c.timeout.Some? ==> obj["timeout"] == JNum(c.timeout.value)) &&
      ("description" in obj <==> !c.description.NoDescription?) &&
      (c.description.NullDescription? ==> obj["description"] == JNull) &&
      (c.description.Described? ==> obj["description"] == JStr(c.description.text))
  {
    var base := EncodeBaseKeys(c);
    assert base["serverName"] == JStr(c.serverName) && base["icon"] == JStr(c.icon);
    assert base["createdAt"] == JNum(c.createdAt) && base["updatedAt"] == JNum(c.updatedAt);
    assert "timeout" in base <==> c.timeout.Some?;
    assert "description" in base <==> !c.description.NoDescription?;
    var keys := ["serverName", "icon", "createdAt", "updatedAt", "timeout", "description"];
    forall k | k in keys
      ensures (k in Encode(c) <==> k in base) && (k in base ==> Encode(c)[k] == base[k])
    {
      EncodeTransportKeeps(base, c.transport, k);
    }
  }

  /** The transport part of the encoding writes only the variant's own keys. */
  lemma EncodeTransportKeeps(obj: Obj, t: Transport, k: string)
    requires k !in ["transportType", "url", "headers", "command", "args", "env"]
    ensures k in EncodeTransport(obj, t) <==> k in obj
    ensures k in obj ==> EncodeTransport(obj, t)[k] == obj[k]
  {
  }

  /** What each variant key of the encoding holds. */
  lemma EncodeVariant(c: McpConfig)
    ensures var obj := Encode(c);
      (c.transport.Sse? ==>
         obj["transportType"] == JStr("sse") && obj["url"] == JStr(c.transport.url) &&
         ("headers" in obj <==> c.transport.headers.Some?) &&
         (c.transport.headers.Some? ==> obj["headers"] == FromStringMap(c.transport.headers.value))) &&
      (c.transport.Stdio? ==>
         obj["transportType"] == JStr("stdio") && obj["command"] == JStr(c.transport.command) &&
         ("args" in obj <==> c.transport.args.Some?) &&
         (c.transport.args.Some? ==> obj["args"] == FromStrings(c.transport.args.value)) &&
         ("env" in obj <==> c.transport.env.Some?) &&
         (c.transport.env.Some? ==> obj["env"] == JObj(c.transport.env.value)))
  {
  }

  /**
   * Round trip through the JSON form: the schema accepts the encoding of a config
   * exactly when the config is well formed, and then gives the config back.
   */
  lemma EncodeRoundTrip(c: McpConfig)
    ensures ParseMcpConfig(Encode(c)).Ok? <==> WellFormed(c)
    ensures WellFormed(c) ==> ParseMcpConfig(Encode(c)) == Ok(c)
  {
    var t := if c.transport.Sse? then SseType else StdioType;
    EncodeBaseParses(c, t);
    EncodeVariantParses(c, t);
  }

  /** The base keys of the encoding pass their checks and read back as the config's own. */
  lemma EncodeBaseParses(c: McpConfig, t: TransportType)
    requires t == if c.transport.Sse? then SseType else StdioType
    ensures var obj := Encode(c);
      Discriminator(obj) == Some(t) && BaseIssues(obj, Full) == [] &&
      obj["serverName"].s == c.serverName && obj["icon"].s == c.icon &&
      obj["createdAt"].n == c.createdAt && obj["updatedAt"].n == c.updatedAt &&
      DescriptionOf(obj) == c.description && OptNumber(obj, "timeout") == c.timeout
  {
    EncodeBase(c);
    EncodeVariant(c);
  }

  /** The variant keys of the encoding pass exactly when the config is well formed, and read back as its transport. */
  lemma EncodeVariantParses(c: McpConfig, t: TransportType)
    requires t == if c.transport.Sse? then SseType else StdioType
    ensures var obj := Encode(c);
      (VariantIssues(obj, t, Full) == [] <==> WellFormed(c)) &&
      (WellFormed(c) ==> TransportOf(obj, t) == c.transport)
  {
    var obj := Encode(c);
    EncodeVariant(c);
    match c.transport
    case Sse(url, headers) =>
      assert HeadersIssues(obj) == [];
      if IsUrl(url) {
        assert HeadersOf(obj) == headers;
      }
    case Stdio(command, args, env) =>
      assert ArgsIssues(obj) == [] && EnvIssues(obj) == [];
      assert ArgsOf(obj) == args;
      assert EnvOf(obj) == env;
  }

  /** Examples from the repository's tests: a bare url without scheme is not a URL, an https url is. */
  lemma UrlExamples()
    ensures !IsUrl("wwww.baidu.com")
    ensures IsUrl("https://mcp.amap.com/sse")
  {
    var good := "https://mcp.amap.com/sse";
    assert good[5] == ':';
    assert forall j :: 1 <= j < 5 ==> IsSchemeChar(good[j]);
  }
}
