/**
 * Namespaced tool names: `serverName + DEFAULT_MCP_TOOL_NAME_SEPARATOR + toolName`,
 * built by the hub's tool catalog and by the OpenAI request transform, and split
 * back apart with JavaScript's `String.prototype.split` when the model's streamed
 * tool calls are turned into MCP tool calls.
 */
module ToolNames {
  import opened Wrappers
  import opened Strings

  /** DEFAULT_MCP_TOOL_NAME_SEPARATOR (the value the provider tests expect, as in `weather-server___get_weather`). */
  const Separator: string := "___"

  function Join(serverName: string, toolName: string): (r: string)
    ensures |r| == |serverName| + |Separator| + |toolName|
    ensures r[..|serverName|] == serverName && r[|serverName| + |Separator|..] == toolName
  {
    serverName + Separator + toolName
  }

  /**
   * `const [serverName, toolName] = name.split(SEPARATOR)`: the text before the first
   * separator, and the text between the first and the second (None when `split`
   * yields a single piece, i.e. `toolName` is `undefined`).
   */
  function SplitName(name: string): (string, Option<string>) {
    match IndexOf(name, Separator, 0)
    case None => (name, None)
    case Some(i) =>
      var rest := i + |Separator|;
      match IndexOf(name, Separator, rest)
      case None => (name[..i], Some(name[rest..]))
      case Some(j) => (name[..i], Some(name[rest..j]))
  }

  /** A server name whose join with a separator first matches the separator where it was appended. */
  predicate SplitsCleanly(serverName: string) {
    IndexOf(serverName + Separator, Separator, 0) == Some(|serverName|)
  }

  /**
   * Splitting a joined name recovers both halves exactly when the first separator
   * of `serverName + SEPARATOR` is the appended one and the tool name holds none.
   */
  lemma SplitJoin(serverName: string, toolName: string)
    requires SplitsCleanly(serverName)
    requires !Contains(toolName, Separator)
    ensures SplitName(Join(serverName, toolName)) == (serverName, Some(toolName))
  {
    var a, n := serverName, Join(serverName, toolName);
    var p := |a| + |Separator|;
    assert n[..p] == a + Separator;
    forall k: nat | k <= |a|
      ensures OccursAt(n, Separator, k) <==> OccursAt(a + Separator, Separator, k)
    {
      OccursInPrefix(n, a + Separator, Separator, k);
    }
    assert IndexOf(n, Separator, 0) == Some(|a|) by {
      var r := IndexOf(n, Separator, 0);
      assert OccursAt(n, Separator, |a|);
      assert r.Some? && r.value <= |a|;
    }
    assert n[p..] == toolName;
    forall k: nat | p <= k
      ensures !OccursAt(n, Separator, k)
    {
      if OccursAt(n, Separator, k) {
        OccursInSuffix(n, Separator, p, k);
      }
    }
  }

  /** A sufficient, readable condition: no separator inside, and no trailing `_`. */
  lemma CleanServerName(serverName: string)
    requires !Contains(serverName, Separator)
    requires serverName == [] || serverName[|serverName| - 1] != '_'
    ensures SplitsCleanly(serverName)
  {
    var s := serverName + Separator;
    forall k: nat | k < |serverName|
      ensures !OccursAt(s, Separator, k)
    {
      if k + |Separator| <= |serverName| {
        assert s[k..k + |Separator|] == serverName[k..k + |Separator|];
        assert !OccursAt(serverName, Separator, k);
      } else {
        assert s[|serverName| - 1] != '_';
        assert k + |Separator| <= |s| ==> s[k..k + |Separator|][|serverName| - 1 - k] == s[|serverName| - 1];
      }
    }
    assert OccursAt(s, Separator, |serverName|);
  }

  /**
   * The catch: a server name ending in `_` does not split back. `x_` with tool `y`
   * joins to `x____y`, whose first separator starts inside the server name.
   */
  lemma TrailingUnderscoreMisSplits()
    ensures Join("x_", "y") == "x____y"
    ensures SplitName("x____y") == ("x", Some("_y"))
  {
    var n := "x____y";
    assert OccursAt(n, Separator, 1);
    assert n[0..3][0] == 'x';
    assert IndexOf(n, Separator, 0) == Some(1);
    assert IndexOf(n, Separator, 4) == None;
    assert n[..1] == "x" && n[4..] == "_y";
  }

  /**
   * No collisions in the catalog: two different (server, tool) pairs whose names
   * split cleanly never get the same namespaced name.
   */
  lemma JoinInjective(s1: string, t1: string, s2: string, t2: string)
    requires SplitsCleanly(s1) && SplitsCleanly(s2)
    requires !Contains(t1, Separator) && !Contains(t2, Separator)
    requires Join(s1, t1) == Join(s2, t2)
    ensures s1 == s2 && t1 == t2
  {
    SplitJoin(s1, t1);
    SplitJoin(s2, t2);
  }
}
