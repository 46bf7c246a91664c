/** The MCP tool registry (class MCPToolRegistry in src/server/mcp-tools.js): registered
    tools keyed by name with usage counters, and the capped execution history. The
    registry's `Map` keeps its keys in insertion order; `order` holds that order. */
module ToolRegistry {
  import opened JsValues
  import opened ToolSchema
  import History

  const HistoryCapacity: nat := 100
  const RecentCount: nat := 10

  /** A registered tool: its definition and its usage counters. `lastCalled` is the time
      of the latest recorded call. */
  datatype Tool = Tool(definition: ToolDefinition, callCount: nat, lastCalled: Option<nat>)

  /** One entry of the execution history. */
  datatype ExecutionRecord = ExecutionRecord(
    id: string,
    toolName: string,
    parameters: Value,
    result: Value,
    executionTime: Option<int>)

  /** What `listTools` shows of a tool. */
  datatype ToolInfo = ToolInfo(
    name: string,
    description: string,
    version: string,
    agent: string,
    parameters: ParameterSchema,
    returnShape: Value,
    callCount: nat,
    lastCalled: Option<nat>)

  /** The answer of `validateToolCall`. */
  datatype CallValidation =
    | ToolNotFound(message: string, availableTools: seq<string>)
    | InvalidCall(error: ParamError, tool: Tool)
    | ValidCall(tool: Tool, validatedParameters: Value)

  datatype ToolUsage = ToolUsage(name: string, callCount: nat, lastCalled: Option<nat>)

  datatype ExecutionStats = ExecutionStats(
    totalTools: nat,
    totalExecutions: nat,
    recentExecutions: seq<ExecutionRecord>,
    toolUsage: seq<ToolUsage>)

  predicate NoDuplicates(s: seq<string>) {
    forall i, j :: 0 <= i < j < |s| ==> s[i] != s[j]
  }

  lemma {:induction false} DistinctCard(s: seq<string>)
    requires NoDuplicates(s)
    ensures |set x | x in s| == |s|
  {
    if s != [] {
      DistinctCard(s[1..]);
      assert (set x | x in s) == (set x | x in s[1..]) + {s[0]};
    }
  }

  function InfoOf(t: Tool): ToolInfo {
    var d := t.definition;
    ToolInfo(d.name, d.description, d.version, d.agent, d.parameters, d.returnShape, t.callCount, t.lastCalled)
  }

  function UsageOf(t: Tool): ToolUsage {
    ToolUsage(t.definition.name, t.callCount, t.lastCalled)
  }

  /** The sum of the call counters of the tools named in `names`. */
  function TotalCalls(names: seq<string>, tools: map<string, Tool>): (r: nat)
    ensures names == [] ==> r == 0
  {
    if names == [] then 0
    else (if names[0] in tools then tools[names[0]].callCount else 0) + TotalCalls(names[1..], tools)
  }

  /** No named tool's counter exceeds the total. */
  lemma {:induction false} TotalCallsBound(names: seq<string>, tools: map<string, Tool>, i: nat)
    requires i < |names| && names[i] in tools
    ensures tools[names[i]].callCount <= TotalCalls(names, tools)
  {
    if i > 0 {
      assert names[1..][i - 1] == names[i];
      TotalCallsBound(names[1..], tools, i - 1);
    }
  }

  lemma {:induction false} TotalCallsUnaffected(names: seq<string>, tools: map<string, Tool>, n: string, t: Tool)
    requires n !in names
    ensures TotalCalls(names, tools[n := t]) == TotalCalls(names, tools)
  {
    if names != [] {
      TotalCallsUnaffected(names[1..], tools, n, t);
    }
  }

  /** Raising the counter of one listed tool by one raises the total by one. */
  lemma {:induction false} TotalCallsBump(names: seq<string>, tools: map<string, Tool>, n: string, t: Tool)
    requires NoDuplicates(names) && n in names && n in tools
    requires t.callCount == tools[n].callCount + 1
    ensures TotalCalls(names, tools[n := t]) == TotalCalls(names, tools) + 1
  {
    assert NoDuplicates(names[1..]) by {
      forall i, j | 0 <= i < j < |names[1..]| ensures names[1..][i] != names[1..][j] {
        assert names[1..][i] == names[i + 1] && names[1..][j] == names[j + 1];
      }
    }
    if names[0] == n {
      assert n !in names[1..] by {
        forall k | 0 <= k < |names[1..]| ensures names[1..][k] != n {
          assert names[1..][k] == names[k + 1];
        }
      }
      TotalCallsUnaffected(names[1..], tools, n, t);
    } else {
      TotalCallsBump(names[1..], tools, n, t);
    }
  }

  /** The counters after one recorded call of `name`: that tool's count goes up by one
      and its last-call time becomes `now`; every other tool is left as it was, and an
      unknown name changes nothing. */
  function CountCall(tools: map<string, Tool>, name: string, now: nat): (r: map<string, Tool>)
    ensures r.Keys == tools.Keys
    ensures forall n :: n in tools && n != name ==> r[n] == tools[n]
    ensures name in tools ==>
              (&& r[name].definition == tools[name].definition
               && r[name].callCount == tools[name].callCount + 1
               && r[name].lastCalled == Some(now))
  {
    if name in tools then
      tools[name := tools[name].(callCount := tools[name].callCount + 1, lastCalled := Some(now))]
    else tools
  }

  /** The entries of `s` with exactly `c` calls, in their order in `s`. A sort that
      keeps every such list as it was is stable. */
  function WithCalls(s: seq<ToolUsage>, c: nat): seq<ToolUsage> {
    if s == [] then []
    else (if s[0].callCount == c then [s[0]] else []) + WithCalls(s[1..], c)
  }

  predicate SortedByCallsDesc(s: seq<ToolUsage>) {
    forall i, j :: 0 <= i < j < |s| ==> s[i].callCount >= s[j].callCount
  }

  /** Inserts `x` into a list sorted by descending call count, in front of the first
      entry whose count does not exceed its own. */
  function InsertByCalls(x: ToolUsage, s: seq<ToolUsage>): (r: seq<ToolUsage>)
    ensures multiset(r) == multiset(s) + multiset{x}
    ensures |r| == |s| + 1 && (r[0] == x || (s != [] && r[0] == s[0]))
  {
    if s == [] || x.callCount >= s[0].callCount then [x] + s
    else
      assert s == [s[0]] + s[1..];
      [s[0]] + InsertByCalls(x, s[1..])
  }

  /** Insertion keeps a list sorted by descending call count. */
  lemma {:induction false} InsertByCallsSorted(x: ToolUsage, s: seq<ToolUsage>)
    requires SortedByCallsDesc(s)
    ensures SortedByCallsDesc(InsertByCalls(x, s))
  {
    if s != [] && x.callCount < s[0].callCount {
      var tail := InsertByCalls(x, s[1..]);
      assert SortedByCallsDesc(s[1..]) by {
        forall i, j | 0 <= i < j < |s[1..]| ensures s[1..][i].callCount >= s[1..][j].callCount {
          assert s[1..][i] == s[i + 1] && s[1..][j] == s[j + 1];
        }
      }
      InsertByCallsSorted(x, s[1..]);
      var r := [s[0]] + tail;
      forall i, j | 0 <= i < j < |r| ensures r[i].callCount >= r[j].callCount {
        if i == 0 {
          assert r[j] in multiset(tail);
          assert r[j] == x || r[j] in multiset(s[1..]);
          if r[j] != x {
            var k :| 0 <= k < |s[1..]| && s[1..][k] == r[j];
            assert s[k + 1] == r[j];
          }
        } else {
          assert r[i] == tail[i - 1] && r[j] == tail[j - 1];
        }
      }
    }
  }

  /** Inserting `x` puts it in front of every entry with the same count and moves no
      other entry past another. */
  lemma {:induction false} InsertByCallsStable(x: ToolUsage, s: seq<ToolUsage>, c: nat)
    ensures WithCalls(InsertByCalls(x, s), c) == (if x.callCount == c then [x] else []) + WithCalls(s, c)
  {
    if s == [] || x.callCount >= s[0].callCount {
      assert ([x] + s)[1..] == s;
    } else {
      var r := [s[0]] + InsertByCalls(x, s[1..]);
      assert r[1..] == InsertByCalls(x, s[1..]);
      InsertByCallsStable(x, s[1..], c);
    }
  }

  function SortByCalls(s: seq<ToolUsage>): (r: seq<ToolUsage>)
    ensures multiset(r) == multiset(s)
    ensures SortedByCallsDesc(r)
    ensures forall c :: WithCalls(r, c) == WithCalls(s, c)
  {
    if s == [] then []
    else
      assert s == [s[0]] + s[1..];
      var sorted := SortByCalls(s[1..]);
      InsertByCallsSorted(s[0], sorted);
      assert forall c :: WithCalls(InsertByCalls(s[0], sorted), c) == WithCalls(s, c) by {
        forall c ensures WithCalls(InsertByCalls(s[0], sorted), c) == WithCalls(s, c) {
          InsertByCallsStable(s[0], sorted, c);
        }
      }
      InsertByCalls(s[0], sorted)
  }

  class Registry {
    var tools: map<string, Tool>
    var order: seq<string>
    var history: seq<ExecutionRecord>

    ghost predicate Valid()
      reads this
    {
      && NoDuplicates(order)
      && (forall n :: n in tools <==> n in order)
      && (forall n :: n in tools ==> tools[n].definition.name == n)
      && |history| <= HistoryCapacity
    }

    /** The registry at start-up: only the built-in `mcp:tool.console_hello`. */
    constructor ()
      ensures Valid()
      ensures tools == map[ConsoleHelloName := Tool(ConsoleHello, 0, None)]
      ensures order == [ConsoleHelloName] && history == []
    {
      tools := map[];
      order := [];
      history := [];
      new;
      ConsoleHelloIsValid();
      var _ := RegisterTool(ConsoleHello);
    }

    /** Registers a definition. An invalid definition is refused and nothing is stored;
        a valid one is stored under its name with fresh counters, replacing an earlier
        tool of that name in its place. */
    method RegisterTool(d: ToolDefinition) returns (err: Option<DefinitionError>)
      requires Valid()
      modifies this
      ensures Valid()
      ensures err == ValidateToolDefinition(d)
      ensures err.Some? ==> tools == old(tools) && order == old(order)
      ensures err.None? ==> tools == old(tools)[d.name := Tool(d, 0, None)]
      ensures err.None? ==> order == if d.name in old(tools) then old(order) else old(order) + [d.name]
      ensures history == old(history)
    {
      err := ValidateToolDefinition(d);
      if err.Some? {
        return;
      }
      if d.name !in tools {
        order := order + [d.name];
      }
      tools := tools[d.name := Tool(d, 0, None)];
    }

    function GetTool(name: string): (r: Option<Tool>)
      reads this
      ensures r.Some? <==> name in tools
      ensures r.Some? ==> r.value == tools[name]
    {
      if name in tools then Some(tools[name]) else None
    }

    lemma OrderCoversTools()
      requires Valid()
      ensures |order| == |tools|
    {
      DistinctCard(order);
      assert tools.Keys == set x | x in order;
    }

    /** Every registered tool, once each, in registration order. */
    function ListTools(): (r: seq<ToolInfo>)
      reads this
      requires Valid()
      ensures |r| == |tools| == |order|
      ensures forall i :: 0 <= i < |r| ==> r[i].name == order[i] && r[i] == InfoOf(tools[order[i]])
      ensures forall n :: n in tools <==> exists i :: 0 <= i < |r| && r[i].name == n
    {
      OrderCoversTools();
      var names, ts := order, tools;
      seq(|names|, i requires 0 <= i < |names| && names[i] in ts => InfoOf(ts[names[i]]))
    }

    /** Validates a call: an unknown tool yields "Tool not found: <name>" and the names of
        all registered tools; otherwise the tool's declared parameters decide. */
    function ValidateToolCall(name: string, params: Value): (r: CallValidation)
      reads this
      requires Valid()
      ensures r.ToolNotFound? <==> name !in tools
      ensures r.ToolNotFound? ==> r.message == "Tool not found: " + name
      ensures r.ToolNotFound? ==>
                (NoDuplicates(r.availableTools) && forall n :: n in r.availableTools <==> n in tools)
      ensures r.ToolNotFound? ==> r.availableTools == order
      ensures !r.ToolNotFound? ==>
                (var vr := ValidateParameters(BuildValidator(tools[name].definition.parameters), params);
                 && r.tool == tools[name]
                 && (r.ValidCall? <==> vr.Ok?)
                 && (r.ValidCall? ==> r.validatedParameters == vr.value)
                 && (r.InvalidCall? ==> r.error == vr.error))
    {
      if name !in tools then ToolNotFound("Tool not found: " + name, order)
      else
        var tool := tools[name];
        match ValidateParameters(BuildValidator(tool.definition.parameters), params)
        case Ok(validated) => ValidCall(tool, validated)
        case Err(e) => InvalidCall(e, tool)
    }

    /** Records one execution: the tool's counter and last-call time move only when the
        tool exists (`CountCall`); one record is always appended, and the history keeps
        its newest `HistoryCapacity` records. */
    method RecordExecution(name: string, parameters: Value, result: Value, executionTime: Option<int>,
                           recordId: string, now: nat)
      returns (rec: ExecutionRecord)
      requires Valid()
      modifies this
      ensures Valid()
      ensures rec == ExecutionRecord(recordId, name, parameters, result, executionTime)
      ensures tools == CountCall(old(tools), name, now)
      ensures order == old(order)
      ensures history == History.PushCapped(old(history), rec, HistoryCapacity)
      ensures TotalCalls(order, tools) == old(TotalCalls(order, tools)) + (if name in old(tools) then 1 else 0)
    {
      if name in tools {
        var tool := tools[name];
        var counted := tool.(callCount := tool.callCount + 1, lastCalled := Some(now));
        TotalCallsBump(order, tools, name, counted);
        tools := tools[name := counted];
      }
      assert tools == CountCall(old(tools), name, now);
      rec := ExecutionRecord(recordId, name, parameters, result, executionTime);
      history := history + [rec];
      if |history| > HistoryCapacity {
        history := history[1..];
      }
      assert history == History.PushCapped(old(history), rec, HistoryCapacity);
    }

    /** The usage entries of all tools, in registration order. */
    function Usages(): (r: seq<ToolUsage>)
      reads this
      requires Valid()
      ensures |r| == |order| && forall i :: 0 <= i < |r| ==> r[i] == UsageOf(tools[order[i]])
    {
      var names, ts := order, tools;
      seq(|names|, i requires 0 <= i < |names| && names[i] in ts => UsageOf(ts[names[i]]))
    }

    /** Usage statistics: the total of all call counters, the newest `RecentCount`
        records, and every tool's usage ranked by descending call count. */
    function GetExecutionStats(): (r: ExecutionStats)
      reads this
      requires Valid()
      ensures r.totalTools == |tools|
      ensures r.totalExecutions == TotalCalls(order, tools)
      ensures |r.recentExecutions| == Min(RecentCount, |history|)
      ensures r.recentExecutions == history[|history| - |r.recentExecutions|..]
      ensures |r.toolUsage| == |tools|
      ensures multiset(r.toolUsage) == multiset(Usages())
      ensures SortedByCallsDesc(r.toolUsage)
      ensures forall c :: WithCalls(r.toolUsage, c) == WithCalls(Usages(), c)
    {
      OrderCoversTools();
      var usage := SortByCalls(Usages());
      assert |usage| == |multiset(usage)| == |multiset(Usages())|;
      ExecutionStats(|tools|, TotalCalls(order, tools), History.LastN(history, RecentCount), usage)
    }
  }
}
