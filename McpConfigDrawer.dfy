/**
 * The data handling of the MCP configuration drawer
 * (packages/electron/src/renderer/src/components/MCPManage/McpConfigDrawer.tsx):
 * the key/value rows of the env and headers editors converted to and from an
 * object, the keyword filter of the tool preview, and the config the drawer
 * submits in add mode.
 */
module McpConfigDrawer {
  import opened Wrappers
  import opened Json
  import opened Strings
  import opened Seqs
  import opened McpConfigs
  import McpClientHub

  /** One row of the key/value editor: `{ key, value }`. */
  datatype Pair = Pair(key: string, value: string)

  /**
   * A JavaScript object with string values: its keys in insertion order (the
   * order `Object.entries` follows) and its values.
   */
  datatype Record = Record(keys: seq<string>, values: map<string, string>)

  const EmptyRecord: Record := Record([], map[])

  /** Each key listed once, and the listed keys are exactly the keys with values. */
  ghost predicate WellKeyed(o: Record) {
    (forall k :: k in o.values <==> k in o.keys) &&
    forall i, j :: 0 <= i < j < |o.keys| ==> o.keys[i] != o.keys[j]
  }

  /** `obj[key] = value`: a new key goes last, an existing key keeps its place. */
  function Assign(o: Record, key: string, value: string): (r: Record)
    ensures WellKeyed(o) ==> WellKeyed(r)
  {
    Record(if key in o.values then o.keys else o.keys + [key], o.values[key := value])
  }

  /** `envArrayToObject`, as a fold over the rows: rows with an empty key are skipped. */
  function EnvToObject(rows: seq<Pair>): (r: Record)
    ensures WellKeyed(r)
  {
    if rows == [] then EmptyRecord
    else
      var o := EnvToObject(rows[..|rows| - 1]);
      var row := rows[|rows| - 1];
      if row.key != "" then Assign(o, row.key, row.value) else o
  }

  /** `envArrayToObject(envArr = [])`: the `forEach` that fills a fresh object. */
  method EnvArrayToObject(envArr: Option<seq<Pair>>) returns (obj: Record)
    ensures obj == EnvToObject(envArr.GetOr([]))
  {
    var rows := envArr.GetOr([]);
    obj := EmptyRecord;
    var i := 0;
    while i < |rows|
      invariant 0 <= i <= |rows|
      invariant obj == EnvToObject(rows[..i])
    {
      var item := rows[i];
      if item.key != "" {
        obj := Assign(obj, item.key, item.value);
      }
      assert rows[..i + 1][..i] == rows[..i];
      i := i + 1;
    }
    assert rows[..i] == rows;
  }

  /** `objectToArray(obj = {})`: one row per entry, in entry order. */
  function ObjectToArray(obj: Option<Record>): (r: seq<Pair>)
    requires obj.Some? ==> WellKeyed(obj.value)
    ensures obj.None? ==> r == []
    ensures obj.Some? ==> |r| == |obj.value.keys|
    ensures obj.Some? ==> forall i :: 0 <= i < |r| ==>
      r[i].key == obj.value.keys[i] && obj.value.keys[i] in obj.value.values && r[i].value == obj.value.values[obj.value.keys[i]]
  {
    if obj.None? then []
    else
      var o := obj.value;
      seq(|o.keys|, i requires 0 <= i < |o.keys| && WellKeyed(o) => Pair(o.keys[i], o.values[o.keys[i]]))
  }

  // ---- properties of the conversions ----

  /** A key ends up in the object exactly when it is non-empty and some row has it. */
  lemma {:induction false} EnvKeys(rows: seq<Pair>, k: string)
    ensures k in EnvToObject(rows).values <==> k != "" && exists i :: 0 <= i < |rows| && rows[i].key == k
  {
    if rows != [] {
      var init := rows[..|rows| - 1];
      EnvKeys(init, k);
      if exists i :: 0 <= i < |rows| && rows[i].key == k {
        var i :| 0 <= i < |rows| && rows[i].key == k;
        if i < |rows| - 1 {
          assert init[i].key == k;
        }
      }
      if exists i :: 0 <= i < |init| && init[i].key == k {
        var i :| 0 <= i < |init| && init[i].key == k;
        assert rows[i].key == k;
      }
    }
  }

  /** The last row with a key decides its value: a later row overwrites an earlier one. */
  lemma {:induction false} EnvLastWins(rows: seq<Pair>, i: nat)
    requires i < |rows| && rows[i].key != ""
    requires forall j :: i < j < |rows| ==> rows[j].key != rows[i].key
    ensures rows[i].key in EnvToObject(rows).values
    ensures EnvToObject(rows).values[rows[i].key] == rows[i].value
  {
    if i < |rows| - 1 {
      var init := rows[..|rows| - 1];
      EnvLastWins(init, i);
    }
  }

  /** The object holds exactly the first `n` entries of `o`, in order, with their values. */
  ghost predicate HoldsPrefix(r: Record, o: Record, n: nat)
    requires n <= |o.keys|
  {
    r.keys == o.keys[..n] && (forall k :: k in r.values <==> k in o.keys[..n]) &&
    forall k :: k in r.values ==> k in o.values && r.values[k] == o.values[k]
  }

  /** Assigning the next entry of `o` extends a prefix of `o` by that entry. */
  lemma AssignNextEntry(o: Record, prev: Record, n: nat)
    requires WellKeyed(o) && 0 < n <= |o.keys| && HoldsPrefix(prev, o, n - 1)
    ensures o.keys[n - 1] in o.values
    ensures HoldsPrefix(Assign(prev, o.keys[n - 1], o.values[o.keys[n - 1]]), o, n)
  {
    var k := o.keys[n - 1];
    assert k !in o.keys[..n - 1] by {
      forall j | 0 <= j < n - 1 ensures o.keys[j] != k { }
    }
    assert o.keys[..n] == o.keys[..n - 1] + [k];
  }

  /** The object of the first `n` rows of `objectToArray(o)`: the first `n` entries of `o`. */
  lemma {:induction false} EnvOfEntries(o: Record, n: nat)
    requires WellKeyed(o) && "" !in o.values && n <= |o.keys|
    ensures HoldsPrefix(EnvToObject(ObjectToArray(Some(o))[..n]), o, n)
  {
    if n > 0 {
      EnvOfEntries(o, n - 1);
      RowsStep(o, n);
      AssignNextEntry(o, EnvToObject(ObjectToArray(Some(o))[..n - 1]), n);
    }
  }

  /** The `n`-th row of `objectToArray(o)` assigns the `n`-th entry of `o`. */
  lemma RowsStep(o: Record, n: nat)
    requires WellKeyed(o) && "" !in o.values && 0 < n <= |o.keys|
    ensures o.keys[n - 1] in o.values
    ensures var rows := ObjectToArray(Some(o));
      EnvToObject(rows[..n]) == Assign(EnvToObject(rows[..n - 1]), o.keys[n - 1], o.values[o.keys[n - 1]])
  {
    var rows := ObjectToArray(Some(o));
    var rs := rows[..n];
    assert rs[..|rs| - 1] == rows[..n - 1];
    var k := o.keys[n - 1];
    assert rs[|rs| - 1] == Pair(k, o.values[k]) && k != "";
  }

  /** Round trip: rows made from an object without an empty key convert back to that object. */
  lemma EnvRoundTrip(o: Record)
    requires WellKeyed(o) && "" !in o.values
    ensures EnvToObject(ObjectToArray(Some(o))) == o
  {
    var rows := ObjectToArray(Some(o));
    EnvOfEntries(o, |o.keys|);
    assert rows[..|o.keys|] == rows;
    assert o.keys[..|o.keys|] == o.keys;
    var r := EnvToObject(rows);
    assert r.values.Keys == o.values.Keys;
    assert r.values == o.values;
  }

  /**
   * The other direction holds only up to duplicates and empty keys: rows with
   * distinct non-empty keys come back unchanged.
   */
  lemma RowsRoundTrip(rows: seq<Pair>)
    requires forall i :: 0 <= i < |rows| ==> rows[i].key != ""
    requires forall i, j :: 0 <= i < j < |rows| ==> rows[i].key != rows[j].key
    ensures ObjectToArray(Some(EnvToObject(rows))) == rows
  {
    DistinctRowsKeys(rows);
    var back := ObjectToArray(Some(EnvToObject(rows)));
    forall i | 0 <= i < |rows|
      ensures back[i] == rows[i]
    {
      EnvLastWins(rows, i);
    }
  }

  /** Rows with distinct non-empty keys list exactly their keys, in order. */
  lemma {:induction false} DistinctRowsKeys(rows: seq<Pair>)
    requires forall i :: 0 <= i < |rows| ==> rows[i].key != ""
    requires forall i, j :: 0 <= i < j < |rows| ==> rows[i].key != rows[j].key
    ensures |EnvToObject(rows).keys| == |rows|
    ensures forall i :: 0 <= i < |rows| ==> EnvToObject(rows).keys[i] == rows[i].key
  {
    if rows != [] {
      var init := rows[..|rows| - 1];
      DistinctRowsKeys(init);
      var last := rows[|rows| - 1].key;
      forall i | 0 <= i < |init|
        ensures init[i].key != last
      {
        assert rows[i].key != rows[|rows| - 1].key;
      }
      EnvKeys(init, last);
    }
  }

  // ---------------------------------------------------------------------------
  // The tool preview's keyword filter
  // ---------------------------------------------------------------------------

  /** The item kept for one tool: itself when its name contains the keyword. */
  function Matching(keyword: string): McpClientHub.Tool -> seq<McpClientHub.Tool> {
    (t: McpClientHub.Tool) => if Contains(t.name, keyword) then [t] else []
  }

  /** `keyword.length ? items.filter(item => item.name.includes(keyword)) : items`. */
  function ShowTools(items: seq<McpClientHub.Tool>, keyword: string): seq<McpClientHub.Tool> {
    if |keyword| > 0 then FlatMap(Matching(keyword), items) else items
  }

  /** The filter keeps exactly the tools whose name contains a non-empty keyword; an empty keyword keeps all. */
  lemma ShowToolsExactly(items: seq<McpClientHub.Tool>, keyword: string, t: McpClientHub.Tool)
    ensures t in ShowTools(items, keyword) <==> t in items && (keyword == "" || Contains(t.name, keyword))
  {
    if |keyword| > 0 {
      FlatMapContains(Matching(keyword), items, t);
      if t in items && Contains(t.name, keyword) {
        assert t in Matching(keyword)(t);
      }
    }
  }

  /** The filter keeps order: it distributes over concatenation. */
  lemma ShowToolsKeepsOrder(a: seq<McpClientHub.Tool>, b: seq<McpClientHub.Tool>, keyword: string)
    ensures ShowTools(a + b, keyword) == ShowTools(a, keyword) + ShowTools(b, keyword)
  {
    FlatMapAppend(Matching(keyword), a, b);
  }

  /** Every name contains the empty string, so the length test only short-cuts the filter. */
  lemma {:induction false} EmptyKeywordFilterIsIdentity(items: seq<McpClientHub.Tool>)
    ensures FlatMap(Matching(""), items) == ShowTools(items, "")
  {
    if items != [] {
      EmptyKeywordFilterIsIdentity(items[..|items| - 1]);
      assert OccursAt(items[|items| - 1].name, "", 0);
      assert items[..|items| - 1] + [items[|items| - 1]] == items;
    }
  }

  // ---------------------------------------------------------------------------
  // The add-mode config
  // ---------------------------------------------------------------------------

  /** The drawer's validated form values; `None` is a field left undefined. */
  datatype McpConfigForm = McpConfigForm(
    serverName: Option<string>,
    icon: Option<string>,
    transportType: TransportType,
    command: Option<string>,
    args: Option<seq<string>>,
    env: Option<seq<Pair>>,
    url: Option<string>,
    headers: Option<seq<Pair>>,
    description: Option<string>,
    timeout: Option<int>)

  function OptJson(s: Option<string>): Option<Json> {
    if s.Some? then Some(JStr(s.value)) else None
  }

  /** The object built from rows, as the JSON value the schema reads. */
  function RowsJson(rows: Option<seq<Pair>>): Option<Json> {
    if rows.Some? then Some(FromStringMap(EnvToObject(rows.value).values)) else None
  }

  /** The keys every transport shares, each present only when the form field is set. */
  function CommonFields(form: McpConfigForm): Obj {
    WithOpt(WithOpt(WithOpt(WithOpt(map[], "serverName", OptJson(form.serverName)),
      "icon", OptJson(form.icon)), "description", OptJson(form.description)),
      "timeout", if form.timeout.Some? then Some(JNum(form.timeout.value)) else None)
  }

  /**
   * The object submitted in add mode, before `AddMcpConfigSchema.parse`: a missing
   * command becomes "", missing args become [], a missing url becomes ""; keys
   * whose value is undefined are absent.
   */
  function AddModeObject(form: McpConfigForm): Obj {
    var base := CommonFields(form);
    if form.transportType == StdioType then
      WithOpt(base["transportType" := JStr("stdio")]
        ["command" := JStr(if Truthy(form.command) then form.command.value else "")]
        ["args" := FromStrings(form.args.GetOr([]))], "env", RowsJson(form.env))
    else
      WithOpt(base["transportType" := JStr("sse")]
        ["url" := JStr(if Truthy(form.url) then form.url.value else "")], "headers", RowsJson(form.headers))
  }

  /** The add-mode submission: the object parsed by the Add schema. */
  function AddModeConfig(form: McpConfigForm): Result<AddMcpConfig, seq<Issue>> {
    ParseAddMcpConfig(AddModeObject(form))
  }

  /** The shared keys of a form with a name and an icon raise no issue. */
  lemma CommonFieldsClean(form: McpConfigForm)
    requires form.serverName.Some? && form.icon.Some?
    ensures var base := CommonFields(form);
      BaseIssues(base, Add) == [] && base["serverName"] == JStr(form.serverName.value)
  {
  }

  /** The transport keys leave the shared keys as `CommonFields` set them. */
  lemma AddModeKeepsCommon(form: McpConfigForm, k: string)
    requires k != "transportType" && k != "command" && k != "args" && k != "env"
    requires k != "url" && k != "headers"
    ensures AgreeOn(AddModeObject(form), CommonFields(form), k)
  {
    var base := CommonFields(form);
    if form.transportType == StdioType {
      var command := JStr(if Truthy(form.command) then form.command.value else "");
      var args := FromStrings(form.args.GetOr([]));
      var typed := base["transportType" := JStr("stdio")];
      OtherKeysKept(typed["command" := command], "args", args, "env", RowsJson(form.env), k);
      OtherKeysKept(typed, "command", command, "args", None, k);
      OtherKeysKept(base, "transportType", JStr("stdio"), "args", None, k);
    } else {
      var url := JStr(if Truthy(form.url) then form.url.value else "");
      var typed := base["transportType" := JStr("sse")];
      OtherKeysKept(typed, "url", url, "headers", RowsJson(form.headers), k);
      OtherKeysKept(base, "transportType", JStr("sse"), "headers", None, k);
    }
  }

  /** Setting key `a` and maybe key `b` leaves every other key as it was. */
  lemma OtherKeysKept(obj: Obj, a: string, x: Json, b: string, v: Option<Json>, k: string)
    requires k != a && k != b
    ensures AgreeOn(WithOpt(obj[a := x], b, v), obj, k)
  {
  }

  /** The add-mode object raises the issues of its shared keys, then those of its transport's keys. */
  lemma AddModeIssues(form: McpConfigForm)
    ensures var obj := AddModeObject(form);
      BaseIssues(obj, Add) == BaseIssues(CommonFields(form), Add) &&
      ("serverName" in obj ==> obj["serverName"] == CommonFields(form)["serverName"])
  {
    var obj, base := AddModeObject(form), CommonFields(form);
    AddModeKeepsCommon(form, "serverName");
    AddModeKeepsCommon(form, "icon");
    AddModeKeepsCommon(form, "description");
    AddModeKeepsCommon(form, "timeout");
    SameBaseIssues(obj, base);
  }

  /**
   * A stdio form with a name and an icon is always accepted, with the command
   * defaulting to "", the args to [] and the env rows turned into an object.
   */
  lemma AddModeStdio(form: McpConfigForm)
    requires form.transportType == StdioType && form.serverName.Some? && form.icon.Some?
    ensures AddModeConfig(form).Ok?
    ensures AddModeConfig(form).value.serverName == form.serverName.value
    ensures AddModeConfig(form).value.transport == Stdio(
      if Truthy(form.command) then form.command.value else "",
      Some(form.args.GetOr([])),
      if form.env.Some? then Some(FromStringMap(EnvToObject(form.env.value).values).fields) else None)
  {
    var obj := AddModeObject(form);
    CommonFieldsClean(form);
    AddModeIssues(form);
    assert Discriminator(obj) == Some(StdioType);
    assert VariantIssues(obj, StdioType, Add) == [];
  }

  /** An sse form without a url submits "" and is rejected with the url format message. */
  lemma AddModeSseNeedsUrl(form: McpConfigForm)
    requires form.transportType == SseType && !Truthy(form.url)
    ensures AddModeObject(form)["url"] == JStr("")
    ensures AddModeConfig(form).Err? && Issue("url", UrlFormatMessage) in AddModeConfig(form).error
  {
    var obj := AddModeObject(form);
    assert Discriminator(obj) == Some(SseType);
    assert !IsUrl("");
    var b := BaseIssues(obj, Add);
    assert VariantIssues(obj, SseType, Add)[0] == Issue("url", UrlFormatMessage);
    assert AllIssues(obj, SseType, Add)[|b|] == Issue("url", UrlFormatMessage);
  }

  /** An sse form with a name, an icon and a URL is accepted with exactly that url and its header rows. */
  lemma AddModeSse(form: McpConfigForm)
    requires form.transportType == SseType && form.serverName.Some? && form.icon.Some?
    requires form.url.Some? && IsUrl(form.url.value)
    ensures AddModeConfig(form).Ok?
    ensures AddModeConfig(form).value.transport == Sse(form.url.value,
      if form.headers.Some? then Some(EnvToObject(form.headers.value).values) else None)
  {
    var obj := AddModeObject(form);
    CommonFieldsClean(form);
    AddModeIssues(form);
    assert Discriminator(obj) == Some(SseType);
    assert VariantIssues(obj, SseType, Add) == [];
  }
}
