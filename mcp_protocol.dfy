/** The MCP protocol handler (class MCPProtocolHandler in src/server/mcp-protocol.js): it
    relays a tool call to the connected browser extensions and correlates their answer
    with the call by execution id.

    Time is an explicit parameter `now`; execution ids are fresh parameters. The promise
    each dispatch returns is a one-shot completion slot in `completions`: written once,
    when the dispatch is resolved or rejected, and never overwritten. A pending execution's
    timeout is an explicit event, `TimerFires`, that can occur only while its timer is
    armed; `executeTool`, suspended at its `await`, waits in `awaiting` until the slot of
    its execution is written and `ResumeExecution` completes it. */
module McpProtocol {
  import opened JsValues
  import opened ToolSchema
  import opened ToolRegistry
  import History

  type ExecId = string
  type ConnId = nat

  const ExecutionTimeout: nat := 30000
  const Agent: string := "mike"
  const WebSocketHandler: string := "websocket_extension_call"
  const RequestType: string := "console_hello"
  const ResponseType: string := "console_hello_response"

  const NoExtensionsMessage: string :=
    "No Chrome Extensions connected. Please ensure Sarah's extension is installed and active."
  const NoOpenConnectionMessage: string := "No active extension connections available"
  const TimeoutMessage: string := "Tool execution timeout after " + NatText(ExecutionTimeout) + "ms"
  const ExpiredMessage: string := "Execution expired during cleanup"
  const UnknownHandlerPrefix: string := "Unknown execution handler: "

  /** An entry of the pending-execution table. Its timer and its resolve/reject pair are
      the `timers` membership and the `completions` slot of the same id. */
  datatype PendingExecution = PendingExecution(executionId: ExecId, toolName: string, parameters: Value, startTime: nat)

  /** The result an extension's answer resolves a dispatch with. `error` is present only
      when the answer carried a truthy error. */
  datatype FinalResult = FinalResult(
    success: bool,
    result: Value,
    error: Option<Value>,
    extensionId: string,
    executionTime: int,
    tabId: Option<Value>,
    url: Option<Value>)

  /** How a dispatch's promise was settled. */
  datatype Outcome = Resolved(final: FinalResult) | Rejected(message: string)

  /** An `executeTool` call suspended at its `await`. */
  datatype CallContext = CallContext(toolName: string, parameters: Value, validatedParameters: Value, startTime: nat)

  /** The message of an error thrown by `executeTool`: a text, or the structured parameter
      error the validator reported. */
  datatype ErrorCause = Message(text: string) | BadParameters(error: ParamError)

  datatype ToolError = ToolError(
    cause: ErrorCause,
    statusCode: Option<nat>,
    availableTools: Option<seq<string>>,
    executionId: ExecId)

  /** What `executeTool` settles with: the final result with the execution's id, duration
      and record id, or the error it rethrows. */
  datatype ToolReply =
    | Completed(final: FinalResult, executionId: ExecId, executionTime: int, recordId: string)
    | Failed(error: ToolError)

  datatype PendingInfo = PendingInfo(executionId: ExecId, toolName: string, startTime: nat, duration: int)

  datatype ExecutionStatus = ExecutionStatus(
    pendingExecutions: nat,
    connectedExtensions: nat,
    executionTimeout: nat,
    pending: map<ExecId, PendingInfo>)

  datatype ProtocolHealth = ProtocolHealth(
    status: string,
    connectedExtensions: nat,
    pendingExecutions: nat,
    registeredTools: nat,
    executionTimeout: nat,
    capabilities: seq<string>)

  /** The connections a dispatch reaches: those that are open and whose send succeeds. */
  function Deliverable(connections: set<ConnId>, open: set<ConnId>, failing: set<ConnId>): set<ConnId> {
    set ws | ws in connections && ws in open && ws !in failing
  }

  /** The message sent to every extension. */
  function RequestEnvelope(id: ExecId, toolName: string, parameters: Value): (m: Value)
    ensures Prop(m, "type") == Some(Str(RequestType))
    ensures PropOf(Prop(m, "data"), "executionId") == Some(Str(id))
    ensures PropOf(Prop(m, "data"), "parameters") == Some(parameters)
  {
    Obj(map[
      "type" := Str(RequestType),
      "data" := Obj(map[
        "executionId" := Str(id),
        "toolName" := Str(toolName),
        "parameters" := parameters,
        "agent" := Str(Agent)])])
  }

  /** How an incoming message is read: `null` makes the property read throw (the error is
      caught and the message counts as handled); a message of another type is not for this
      protocol; an answer without a truthy `executionId` is handled and dropped. */
  datatype ResponseKind = Unreadable | OtherType | MissingId | Answer(id: Value, data: Value)

  /** `message.data || {}` */
  function ResponseData(message: Value): Value {
    Or(Prop(message, "data"), Obj(map[]))
  }

  function ReadResponse(message: Value): (k: ResponseKind)
    ensures k.Unreadable? <==> message.Null?
    ensures k.OtherType? <==> !message.Null? && Prop(message, "type") != Some(Str(ResponseType))
    ensures k.MissingId? <==>
              (!message.Null? && Prop(message, "type") == Some(Str(ResponseType))
               && !Truthy(Prop(ResponseData(message), "executionId")))
    ensures k.Answer? ==> Truthy(Some(k.id)) && Prop(ResponseData(message), "executionId") == Some(k.id)
                          && Truthy(Some(k.data)) && k.data == ResponseData(message)
  {
    if message.Null? then Unreadable
    else if Prop(message, "type") != Some(Str(ResponseType)) then OtherType
    else
      var data := ResponseData(message);
      var id := Prop(data, "executionId");
      if !Truthy(id) then MissingId else Answer(id.value, data)
  }

  /** The pending execution an answer names, if it names one by a string id (the table's
      keys are strings, so no other id can match). */
  function AnsweredId(message: Value): (r: Option<ExecId>)
    ensures r.Some? <==> ReadResponse(message).Answer? && ReadResponse(message).id.Str?
    ensures r.Some? ==> Prop(ResponseData(message), "executionId") == Some(Str(r.value))
  {
    var k := ReadResponse(message);
    if k.Answer? && k.id.Str? then Some(k.id.s) else None
  }

  /** Whether building the final result of an answer throws: it has no truthy result,
      and its truthy error cannot be put into "Error: ${error}". */
  predicate ResultThrows(data: Value) {
    !Truthy(Prop(data, "result")) && Truthy(Prop(data, "error")) && TextThrows(Prop(data, "error").value)
  }

  /** The final result built from an answer's data, `None` when building it throws:
      success exactly when no truthy error came back; the result is the answer's own
      truthy result, or else "Error: <error>" or "Execution completed", so it is always
      truthy. */
  function FinalResultOf(data: Value, extensionId: string, elapsed: int): (r: Option<FinalResult>)
    ensures r.None? <==> ResultThrows(data)
    ensures r.Some? ==>
              var fr := r.value;
              && (fr.success <==> !Truthy(Prop(data, "error")))
              && (fr.success <==> fr.error.None?)
              && (fr.error.Some? ==> Some(fr.error.value) == Prop(data, "error"))
              && (Truthy(Prop(data, "result")) ==> Some(fr.result) == Prop(data, "result"))
              && (!Truthy(Prop(data, "result")) ==>
                    fr.result == Str(if fr.success then "Execution completed" else "Error: " + Text(fr.error.value).value))
              && Truthy(Some(fr.result))
              && fr.extensionId == extensionId && fr.executionTime == elapsed
              && fr.tabId == Prop(data, "tabId") && fr.url == Prop(data, "url")
  {
    var result := Prop(data, "result");
    var error := Prop(data, "error");
    var fallback :=
      if Truthy(result) then Some(result.value)
      else if !Truthy(error) then Some(Str("Execution completed"))
      else match Text(error.value)
           case None => None
           case Some(t) => Some(Str("Error: " + t));
    match fallback
    case None => None
    case Some(value) =>
      Some(FinalResult(
        !Truthy(error),
        value,
        if Truthy(error) then error else None,
        extensionId,
        elapsed,
        Prop(data, "tabId"),
        Prop(data, "url")))
  }

  /** `{ ...entries }` of the defined entries only: an `undefined` property is dropped. */
  function WithOptional(fields: map<string, Value>, key: string, v: Option<Value>): (r: map<string, Value>)
    ensures v.Some? ==> r == fields[key := v.value]
    ensures v.None? ==> r == fields
  {
    if v.Some? then fields[key := v.value] else fields
  }

  /** The final result as the execution record stores it. */
  function ResultValue(fr: FinalResult): (v: Value)
    ensures Prop(v, "success") == Some(Bool(fr.success))
    ensures Prop(v, "result") == Some(fr.result)
    ensures Prop(v, "error") == fr.error
  {
    var metadata := map[
      "agent" := Str(Agent),
      "extensionId" := Str(fr.extensionId),
      "executionTime" := Num(fr.executionTime)];
    var metadata := WithOptional(WithOptional(metadata, "tabId", fr.tabId), "url", fr.url);
    var fields := map["success" := Bool(fr.success), "result" := fr.result, "executionMetadata" := Obj(metadata)];
    Obj(WithOptional(fields, "error", fr.error))
  }

  function CauseValue(c: ErrorCause): Value {
    match c
    case Message(text) => Str(text)
    case BadParameters(NotAnObject) => Obj(map["violation" := Str("not an object")])
    case BadParameters(FieldError(field, _)) => Obj(map["field" := Str(field)])
  }

  /** The failed result recorded when `executeTool` throws. */
  function FailedResultValue(c: ErrorCause, executionTime: int): (v: Value)
    ensures Prop(v, "success") == Some(Bool(false))
    ensures Prop(v, "error") == Some(CauseValue(c))
  {
    Obj(map[
      "success" := Bool(false),
      "error" := CauseValue(c),
      "executionMetadata" := Obj(map[
        "agent" := Str(Agent),
        "executionTime" := Num(executionTime),
        "failed" := Bool(true)])])
  }

  /** The ids of the entries older than the timeout at time `now`. */
  function ExpiredIds(pending: map<ExecId, PendingExecution>, now: nat): set<ExecId> {
    set id | id in pending && now - pending[id].startTime > ExecutionTimeout
  }

  /** The send loop of a dispatch: tries every connection once and counts the sends that
      went through, i.e. those to connections that are open and whose send succeeds. */
  method SendToAll(connections: set<ConnId>, open: set<ConnId>, failing: set<ConnId>)
    returns (recipients: set<ConnId>, messagesSent: nat)
    ensures recipients == Deliverable(connections, open, failing)
    ensures messagesSent == |recipients|
  {
    recipients, messagesSent := {}, 0;
    var rest := connections;
    while rest != {}
      invariant rest <= connections
      invariant recipients == Deliverable(connections - rest, open, failing)
      invariant messagesSent == |recipients|
      decreases |rest|
    {
      var ws :| ws in rest;
      if ws in open && ws !in failing {
        assert ws !in recipients;
        recipients := recipients + {ws};
        messagesSent := messagesSent + 1;
      }
      assert Deliverable(connections - (rest - {ws}), open, failing)
          == Deliverable(connections - rest, open, failing)
             + (if ws in open && ws !in failing then {ws} else {});
      rest := rest - {ws};
    }
  }

  /** The promises of `ids`, all rejected with `message`. */
  function Rejections(ids: set<ExecId>, message: string): (r: map<ExecId, Outcome>)
    ensures r.Keys == ids
    ensures forall id :: id in r ==> r[id] == Rejected(message)
  {
    map id | id in ids :: Rejected(message)
  }

  /** The sweep of `cleanupExpiredExecutions` over a pending table: each entry older than
      the timeout is deleted and its promise rejected, each other entry is kept, and the
      deletions are counted. */
  method SweepExpired(table: map<ExecId, PendingExecution>, settled: map<ExecId, Outcome>, now: nat)
    returns (kept: map<ExecId, PendingExecution>, done: map<ExecId, Outcome>, cleanedCount: nat)
    ensures kept == table - ExpiredIds(table, now)
    ensures done == settled + Rejections(ExpiredIds(table, now), ExpiredMessage)
    ensures cleanedCount == |ExpiredIds(table, now)|
  {
    kept, cleanedCount := table, 0;
    var expired: set<ExecId> := {};
    var rest := table.Keys;
    while rest != {}
      invariant rest <= table.Keys
      invariant expired == ExpiredIds(table, now) - rest
      invariant kept == table - expired
      invariant cleanedCount == |expired|
      decreases |rest|
    {
      var id :| id in rest;
      if now - table[id].startTime > ExecutionTimeout {
        assert id !in expired;
        kept := kept - {id};
        expired := expired + {id};
        cleanedCount := cleanedCount + 1;
      }
      rest := rest - {id};
    }
    assert expired == ExpiredIds(table, now);
    // The deleted entries' promises are rejected in the same synchronous sweep; no
    // promise reaction can run in between, so they are written together.
    done := settled + Rejections(expired, ExpiredMessage);
  }

  /** Each pending entry sits under its own id and is not yet settled; a stranded
      execution (one whose entry was removed by an answer whose handling then threw) is
      neither pending nor settled; every suspended call waits on an execution that is
      pending, settled or stranded. */
  predicate Tracked(pending: map<ExecId, PendingExecution>, completions: map<ExecId, Outcome>,
                    awaiting: map<ExecId, CallContext>, stranded: set<ExecId>)
  {
    && pending.Keys !! completions.Keys
    && stranded !! pending.Keys && stranded !! completions.Keys
    && (forall id :: id in pending ==> pending[id].executionId == id)
    && (forall id :: id in awaiting ==> id in pending || id in completions || id in stranded)
  }

  /** Moving the expired entries from the table to their rejections keeps the entries
      tracked, settles nothing twice and leaves no expired entry behind. */
  lemma SweepKeepsTracked(pending: map<ExecId, PendingExecution>, completions: map<ExecId, Outcome>,
                          awaiting: map<ExecId, CallContext>, stranded: set<ExecId>, now: nat)
    requires Tracked(pending, completions, awaiting, stranded)
    ensures var expired := ExpiredIds(pending, now);
            && Tracked(pending - expired, completions + Rejections(expired, ExpiredMessage), awaiting, stranded)
            && KeepsSettled(completions, completions + Rejections(expired, ExpiredMessage))
            && forall id :: id in pending - expired ==> now - pending[id].startTime <= ExecutionTimeout
  {
  }

  /** Every promise settled before is still settled the same way: no slot is written twice. */
  predicate KeepsSettled(before: map<ExecId, Outcome>, after: map<ExecId, Outcome>) {
    forall id :: id in before ==> id in after && after[id] == before[id]
  }

  class ProtocolHandler {
    const registry: Registry
    var pending: map<ExecId, PendingExecution>
    var timers: set<ExecId>
    var connections: set<ConnId>
    var completions: map<ExecId, Outcome>
    var awaiting: map<ExecId, CallContext>
    /** The executions whose entry and timer are gone but whose promise nobody will
        settle: their answer was taken off the table, then building its result threw. */
    ghost var stranded: set<ExecId>

    /** Every pending entry has its timer armed and nothing else has one; a pending
        execution is not yet settled; a stranded one is neither pending nor settled; every
        suspended call waits on an execution that is pending, settled or stranded. */
    ghost predicate Valid()
      reads this, registry
    {
      && registry.Valid()
      && timers == pending.Keys
      && Tracked(pending, completions, awaiting, stranded)
    }

    constructor (registry: Registry)
      requires registry.Valid()
      ensures Valid() && this.registry == registry
      ensures pending == map[] && timers == {} && connections == {}
      ensures completions == map[] && awaiting == map[] && stranded == {}
    {
      this.registry := registry;
      pending := map[];
      timers := {};
      connections := {};
      completions := map[];
      awaiting := map[];
      stranded := {};
    }

    method RegisterExtensionConnection(ws: ConnId)
      requires Valid()
      modifies this
      ensures Valid()
      ensures connections == old(connections) + {ws}
      ensures pending == old(pending) && timers == old(timers)
      ensures completions == old(completions) && awaiting == old(awaiting) && stranded == old(stranded)
    {
      connections := connections + {ws};
    }

    /** The `close` handler installed on a registered connection. */
    method ExtensionConnectionClosed(ws: ConnId)
      requires Valid()
      modifies this
      ensures Valid()
      ensures connections == old(connections) - {ws}
      ensures pending == old(pending) && timers == old(timers)
      ensures completions == old(completions) && awaiting == old(awaiting) && stranded == old(stranded)
    {
      connections := connections - {ws};
    }

    /** Dispatches a call to the extensions. With no connection at all it rejects at once,
        before any entry or timer exists. Otherwise it enters the execution, arms its timer
        and sends the request to each connection; the connections that are `open` and
        whose send does not fail (`failing`) receive it. When none does, the timer is
        cleared, the entry removed and the dispatch rejected, so the table is as before. */
    method ExecuteViaWebSocketExtension(toolName: string, parameters: Value, id: ExecId, now: nat,
                                        open: set<ConnId>, failing: set<ConnId>)
      returns (recipients: set<ConnId>, envelope: Value)
      requires Valid()
      requires id !in pending && id !in completions && id !in stranded
      modifies this
      ensures Valid()
      ensures envelope == RequestEnvelope(id, toolName, parameters)
      ensures recipients == Deliverable(old(connections), open, failing)
      ensures connections == old(connections) && awaiting == old(awaiting) && stranded == old(stranded)
      ensures recipients == {} ==> pending == old(pending) && timers == old(timers)
      ensures old(connections) == {} ==> completions == old(completions)[id := Rejected(NoExtensionsMessage)]
      ensures old(connections) != {} && recipients == {} ==>
                completions == old(completions)[id := Rejected(NoOpenConnectionMessage)]
      ensures recipients != {} ==>
                && pending == old(pending)[id := PendingExecution(id, toolName, parameters, now)]
                && timers == old(timers) + {id}
                && completions == old(completions)
      ensures KeepsSettled(old(completions), completions)
    {
      envelope := RequestEnvelope(id, toolName, parameters);
      recipients := {};
      if connections == {} {
        completions := completions[id := Rejected(NoExtensionsMessage)];
        return;
      }
      ghost var before := pending;
      pending := pending[id := PendingExecution(id, toolName, parameters, now)];
      timers := timers + {id};

      var messagesSent;
      recipients, messagesSent := SendToAll(connections, open, failing);

      if messagesSent == 0 {
        timers := timers - {id};
        pending := pending - {id};
        assert pending == before;
        completions := completions[id := Rejected(NoOpenConnectionMessage)];
      }
    }

    /** The timeout of a pending execution fires: its entry is removed and its dispatch
        rejected; no other entry is touched. A cleared timer never fires. */
    method TimerFires(id: ExecId)
      requires Valid()
      requires id in timers
      modifies this
      ensures Valid()
      ensures pending == old(pending) - {id} && timers == old(timers) - {id}
      ensures completions == old(completions)[id := Rejected(TimeoutMessage)]
      ensures connections == old(connections) && awaiting == old(awaiting) && stranded == old(stranded)
      ensures KeepsSettled(old(completions), completions)
    {
      pending := pending - {id};
      timers := timers - {id};
      completions := completions[id := Rejected(TimeoutMessage)];
    }

    /** Handles a message from an extension connection whose client id is `extensionId`
        (`None` when no client information is passed). A message of another type is not
        handled and changes nothing. An answer that names a pending execution clears its
        timer and removes its entry, then resolves its dispatch, once; when reading the
        client id or building the final result throws after the removal, the error is
        caught, the message still counts as handled and the dispatch is never settled.
        Any other answer (no id, an unknown id, an execution already settled) is handled
        and changes nothing. */
    method HandleExtensionResponse(message: Value, extensionId: Option<string>, now: nat) returns (handled: bool)
      requires Valid()
      modifies this
      ensures Valid()
      ensures handled <==> !ReadResponse(message).OtherType?
      ensures connections == old(connections) && awaiting == old(awaiting)
      ensures var a := AnsweredId(message);
              if a.Some? && a.value in old(pending) then
                && pending == old(pending) - {a.value}
                && timers == old(timers) - {a.value}
                && var fr := if extensionId.None? then None else
                     FinalResultOf(ResponseData(message), extensionId.value, now - old(pending)[a.value].startTime);
                   if fr.Some? then
                     completions == old(completions)[a.value := Resolved(fr.value)] && stranded == old(stranded)
                   else
                     completions == old(completions) && stranded == old(stranded) + {a.value}
              else
                && pending == old(pending) && timers == old(timers) && completions == old(completions)
                && stranded == old(stranded)
      ensures KeepsSettled(old(completions), completions)
    {
      var k := ReadResponse(message);
      if k.OtherType? {
        return false;
      }
      handled := true;
      var a := AnsweredId(message);
      if a.None? || a.value !in pending {
        return;
      }
      var id := a.value;
      var execution := pending[id];
      timers := timers - {id};
      pending := pending - {id};
      var fr := None;
      if extensionId.Some? {
        fr := FinalResultOf(ResponseData(message), extensionId.value, now - execution.startTime);
      }
      if fr.None? {
        // The TypeError is caught by the handler's own `catch`; the removed entry took
        // the only reference to the dispatch's resolve and reject with it.
        stranded := stranded + {id};
        return;
      }
      completions := completions[id := Resolved(fr.value)];
    }

    /** Removes and rejects exactly the entries older than the timeout, keeps every other
        entry, and returns how many it removed. */
    method CleanupExpiredExecutions(now: nat) returns (cleanedCount: nat)
      requires Valid()
      modifies this
      ensures Valid()
      ensures cleanedCount == |ExpiredIds(old(pending), now)|
      ensures pending == old(pending) - ExpiredIds(old(pending), now)
      ensures forall id :: id in pending ==> now - pending[id].startTime <= ExecutionTimeout
      ensures completions == old(completions) + Rejections(ExpiredIds(old(pending), now), ExpiredMessage)
      ensures KeepsSettled(old(completions), completions)
      ensures connections == old(connections) && awaiting == old(awaiting) && stranded == old(stranded)
    {
      ghost var expired := ExpiredIds(pending, now);
      SweepKeepsTracked(pending, completions, awaiting, stranded, now);
      var kept, done;
      kept, done, cleanedCount := SweepExpired(pending, completions, now);
      assert kept == pending - expired && done == completions + Rejections(expired, ExpiredMessage);
      assert Tracked(kept, done, awaiting, stranded);
      pending, timers, completions := kept, kept.Keys, done;
    }

    /** The pending table as `getExecutionStatus` reports it at time `now`: one entry per
        pending execution, with its age. */
    function GetExecutionStatus(now: nat): (r: ExecutionStatus)
      reads this, registry
      requires Valid()
      ensures r.pendingExecutions == |pending| == |timers|
      ensures r.connectedExtensions == |connections| && r.executionTimeout == ExecutionTimeout
      ensures r.pending.Keys == pending.Keys
      ensures forall id :: id in r.pending ==>
                r.pending[id] == PendingInfo(id, pending[id].toolName, pending[id].startTime, now - pending[id].startTime)
    {
      var p := pending;
      ExecutionStatus(
        |p|,
        |connections|,
        ExecutionTimeout,
        map id | id in p :: PendingInfo(p[id].executionId, p[id].toolName, p[id].startTime, now - p[id].startTime))
    }

    function GetProtocolHealth(): (r: ProtocolHealth)
      reads this, registry
      requires Valid()
      ensures r.status == "healthy" && r.executionTimeout == ExecutionTimeout
      ensures r.connectedExtensions == |connections|
      ensures r.pendingExecutions == |pending| == |timers|
      ensures r.registeredTools == |registry.tools|
    {
      ProtocolHealth(
        "healthy",
        |connections|,
        |pending|,
        |registry.tools|,
        ExecutionTimeout,
        ["websocket_extension_communication", "tool_execution_coordination", "timeout_management", "execution_tracking"])
    }

    /** `executeTool` up to its first `await`. A call the registry refuses throws with
        status 400 (and the registered tool names when the tool is unknown) before any
        dispatch; a tool with an unknown execution handler throws too; each failure is
        recorded once, with the parameters as given. A valid call is dispatched with the
        validated parameters and waits in `awaiting`; nothing is recorded yet. */
    method ExecuteTool(toolName: string, parameters: Value, id: ExecId, recordId: string, now: nat,
                       open: set<ConnId>, failing: set<ConnId>)
      returns (reply: Option<ToolReply>, recipients: set<ConnId>)
      requires Valid()
      requires id !in pending && id !in completions && id !in awaiting && id !in stranded
      modifies this, registry
      ensures Valid()
      ensures KeepsSettled(old(completions), completions)
      ensures connections == old(connections) && stranded == old(stranded)
      ensures var v := old(registry.ValidateToolCall(toolName, parameters));
              var cause :=
                if v.ToolNotFound? then Message(v.message)
                else if v.InvalidCall? then BadParameters(v.error)
                else Message(UnknownHandlerPrefix + v.tool.definition.executionHandler);
              if v.ValidCall? && v.tool.definition.executionHandler == WebSocketHandler then
                && reply.None?
                && awaiting == old(awaiting)[id := CallContext(toolName, parameters, v.validatedParameters, now)]
                && recipients == Deliverable(old(connections), open, failing)
                && (recipients == {} ==>
                      && pending == old(pending)
                      && completions == old(completions)[id := Rejected(
                           if old(connections) == {} then NoExtensionsMessage else NoOpenConnectionMessage)])
                && (recipients != {} ==>
                      && pending == old(pending)[id := PendingExecution(id, toolName, v.validatedParameters, now)]
                      && completions == old(completions))
                && registry.tools == old(registry.tools) && registry.history == old(registry.history)
              else
                && reply == Some(Failed(ToolError(
                     cause,
                     if v.ValidCall? then None else Some(400),
                     if v.ToolNotFound? then Some(v.availableTools) else None,
                     id)))
                && recipients == {}
                && pending == old(pending) && completions == old(completions) && awaiting == old(awaiting)
                && registry.tools == CountCall(old(registry.tools), toolName, now)
                && registry.history == History.PushCapped(old(registry.history),
                     ExecutionRecord(recordId, toolName, parameters, FailedResultValue(cause, 0), Some(0)),
                     HistoryCapacity)
      ensures registry.order == old(registry.order)
    {
      var v := registry.ValidateToolCall(toolName, parameters);
      var cause: ErrorCause;
      var status: Option<nat> := None;
      var available: Option<seq<string>> := None;
      match v {
        case ToolNotFound(message, tools) =>
          cause, status, available := Message(message), Some(400), Some(tools);
        case InvalidCall(error, _) =>
          cause, status := BadParameters(error), Some(400);
        case ValidCall(tool, validated) =>
          var handler := tool.definition.executionHandler;
          if handler == WebSocketHandler {
            var envelope;
            recipients, envelope := ExecuteViaWebSocketExtension(toolName, validated, id, now, open, failing);
            awaiting := awaiting[id := CallContext(toolName, parameters, validated, now)];
            reply := None;
            return;
          }
          cause := Message(UnknownHandlerPrefix + handler);
      }
      recipients := {};
      var _ := registry.RecordExecution(toolName, parameters, FailedResultValue(cause, 0), Some(0), recordId, now);
      reply := Some(Failed(ToolError(cause, status, available, id)));
    }

    /** `executeTool` after its `await`, once the dispatch of execution `id` is settled:
        a resolved dispatch is recorded with the validated parameters and returned with
        the execution's id, duration and record id; a rejected one is recorded as a failure
        with the parameters as given and rethrown. Either way exactly one record is added. */
    method ResumeExecution(id: ExecId, now: nat, recordId: string) returns (reply: ToolReply)
      requires Valid()
      requires id in awaiting && id in completions
      modifies this, registry
      ensures Valid()
      ensures var call := old(awaiting[id]);
              var elapsed := now - call.startTime;
              match old(completions[id])
              case Resolved(fr) =>
                && reply == Completed(fr, id, elapsed, recordId)
                && registry.history == History.PushCapped(old(registry.history),
                     ExecutionRecord(recordId, call.toolName, call.validatedParameters, ResultValue(fr), Some(elapsed)),
                     HistoryCapacity)
              case Rejected(message) =>
                && reply == Failed(ToolError(Message(message), None, None, id))
                && registry.history == History.PushCapped(old(registry.history),
                     ExecutionRecord(recordId, call.toolName, call.parameters,
                                     FailedResultValue(Message(message), elapsed), Some(elapsed)),
                     HistoryCapacity)
      ensures registry.tools == CountCall(old(registry.tools), old(awaiting[id]).toolName, now)
      ensures registry.order == old(registry.order)
      ensures awaiting == old(awaiting) - {id}
      ensures pending == old(pending) && timers == old(timers) && completions == old(completions)
      ensures connections == old(connections) && stranded == old(stranded)
    {
      var call := awaiting[id];
      var elapsed := now - call.startTime;
      var recorded: Value, result: Value;
      match completions[id] {
        case Resolved(fr) =>
          recorded, result := call.validatedParameters, ResultValue(fr);
          reply := Completed(fr, id, elapsed, recordId);
        case Rejected(message) =>
          recorded, result := call.parameters, FailedResultValue(Message(message), elapsed);
          reply := Failed(ToolError(Message(message), None, None, id));
      }
      var _ := registry.RecordExecution(call.toolName, recorded, result, Some(elapsed), recordId, now);
      assert Tracked(pending, completions, awaiting - {id}, stranded);
      awaiting := awaiting - {id};
    }
  }
}
