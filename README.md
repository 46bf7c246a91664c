# Browser-MCP-Control core, modelled in Dafny

This project models the tool-execution relay of the Browser-MCP-Control demo: a Node
server that exposes MCP tools over HTTP and relays each call to a Chrome extension over
WebSocket. It also models the two smaller pieces around that relay, the CLI's MCP client
and the Hello World server's own bookkeeping.

- `mcp_protocol.dfy` (`McpProtocol`): the execution correlator, `MCPProtocolHandler`.
  - It keeps a table of pending executions keyed by execution id, with one armed timer per
    entry, and the set of extension connections.
  - A dispatch rejects at once when no extension is connected. Otherwise it enters the
    execution, arms its timer, sends the request to every open connection, and rolls back
    when no send went through.
  - An answer is matched to its pending execution once. Messages of another type, answers
    with no id or an unknown id, and duplicate answers change nothing.
  - The cleanup sweep removes and rejects exactly the entries older than 30000 ms.
  - Time is a parameter `now` and execution ids are fresh parameters.
  - Each dispatch's promise is a one-shot completion slot (`completions`), written once.
  - A timer firing is an explicit event (`TimerFires`), possible only while its timer is
    armed.
  - `executeTool` is split at its `await`: `ExecuteTool` validates and dispatches, and
    `ResumeExecution` records and returns once the slot is written.
  - An answer is taken off the table before its final result is built. When building it
    throws (an error value that `${}` cannot convert, or no client information), the
    handler's own `catch` swallows the error. The dispatch is then never settled, and its
    timer is already cleared. The ghost set `stranded` holds these executions: they are
    neither pending nor settled, and no later operation settles them.
- `tool_schema.dfy` (`ToolSchema`): tool definitions and their validation (name pattern,
  description length, version shape, `parameters.type`, `returns` being an object), and the
  parameter validator built
  from a definition's declared properties. The validator is a tagged union of rules, not
  Joi. The built-in `mcp:tool.console_hello` definition is here too.
- `tool_registry.dfy` (`ToolRegistry`): `MCPToolRegistry`, a class with the tool map, its
  insertion order, the usage counters, the execution history capped at 100 records, and
  the usage statistics.
- `history.dfy` (`History`): the push-then-shift capped log shared by the registry and the
  server, with its reference definition "the newest `cap` entries".
- `mcp_client.dfy` (`McpClient`): `MCPClient`. It covers base-URL and option
  normalisation, the retry loop with capped exponential backoff, error classification,
  result formatting and tool lookup. Each HTTP outcome is an input.
- `server.dfy` (`HelloServer`): `HelloWorldMCPServer`. It covers the client table and its
  counters, the last-100 message history, the message shape check, the `/api/hello` name
  cleaning and the `/api/stats` recent slice.
- `values.dfy` (`JsValues`): JSON values and the JavaScript operators the code applies to
  them: truthiness, `||`, property reads, template-string conversion and `trim`.

## Model

| member | source | states |
|---|---|---|
| JsValues.Or | src/cli/mcp-client.js:222-227 | JavaScript's or-operator on `a` and `b` gives `a` when `a` is truthy and `b` otherwise |
| JsValues.Prop | src/server/mcp-protocol.js:218 | a property read is defined exactly when the object has the key, and then gives its value |
| JsValues.PropOf | src/cli/mcp-client.js:198 | `v?.key` is undefined on an undefined value and a plain read otherwise |
| JsValues.NatTextValue | src/server/mcp-protocol.js:166 | the decimal text of a number, as a template string prints it, reads back to that number |
| JsValues.Text | src/server/mcp-protocol.js:244 | `${v}` throws exactly for an object with its own `toString` and for an array holding such a value somewhere; a string prints as itself, a number as its decimal text, any other object as `[object Object]` |
| JsValues.Trim | src/server/server.js:362 | `trim()` returns a contiguous slice of its input; only JavaScript white space is cut on either side; the result neither starts nor ends with white space |
| JsValues.TrimStartDropsSpace | src/server/server.js:362 | every character the start trim removes is white space |
| JsValues.TrimEndDropsSpace | src/server/server.js:362 | every character the end trim removes is white space |
| JsValues.TrimIsPadding | src/server/server.js:362 | trimming both ends leaves a slice of the input with only white space before and after it |
| JsValues.TrimIsSlice | src/server/server.js:362 | trimming both ends leaves a contiguous slice of the input |
| JsValues.TrimOfTrimmed | src/server/server.js:362 | a non-empty string with no white space at either end trims to itself |
| JsValues.TrimIdempotent | src/server/server.js:362 | trimming twice is trimming once |
| JsValues.TrimStartSkipsSpace | src/server/server.js:362 | leading white space of any length is removed by the start trim |
| JsValues.TrimStartAppendSpace | src/server/server.js:362 | white space appended to a string survives the start trim behind its first non-space character, or vanishes with an all-space string |
| JsValues.TrimEndSkipsSpace | src/server/server.js:362 | trailing white space of any length is removed by the end trim |
| JsValues.TrimStartPadded | src/server/server.js:362 | leading white space does not change the start trim of a padded string |
| JsValues.TrimEndPadded | src/server/server.js:362 | trailing white space does not change the result of trimming both ends |
| JsValues.TrimPadded | src/server/server.js:362 | any white space added on either side of a string does not change its trim |
| JsValues.Prefix | src/server/server.js:362 | `substring(0, n)` has length min(n, length) and is a prefix of the input |
| History.PushCapped | src/server/mcp-tools.js:257-262 | push then shift: the new entry is last; a log within its capacity stays within it; the result is the old log plus the entry, possibly without its oldest entry |
| History.PushCappedKeepsNewest | src/server/mcp-tools.js:257-262 | a log that holds the newest `cap` of all entries appended so far still does after one more push, so the oldest entry is dropped first |
| History.PushCappedDropsOldest | src/server/server.js:214-216 | below capacity nothing is dropped; at capacity exactly the oldest entry is dropped |
| History.LastN | src/server/mcp-tools.js:282 | `slice(-n)` keeps the newest min(n, length) entries, and the whole array for `n` = 0, because `-0` is the start |
| ToolSchema.ValidateToolDefinition | src/server/mcp-tools.js:111-132 | a definition is accepted exactly when its name matches the tool pattern, its description has 10 to 500 characters, its version is `\d+.\d+.\d+`, `parameters.type` is `object` and `returns` is an object; otherwise the first violated constraint in schema order is reported, each refusal exactly under its condition |
| ToolSchema.ToolNameIsPattern | src/server/mcp-tools.js:113 | a tool name is exactly `mcp:tool.` followed by a letter or underscore and then letters, digits or underscores |
| ToolSchema.VersionMatcherIsPattern | src/server/mcp-tools.js:115 | the version matcher accepts exactly three non-empty digit strings joined by dots |
| ToolSchema.DottedRun | src/server/mcp-tools.js:115 | the digit run at the start of a dotted version ends exactly at its first dot |
| ToolSchema.TruthyBound | src/server/mcp-tools.js:199-200 | a length bound applies exactly when it is declared and non-zero |
| ToolSchema.RuleOf | src/server/mcp-tools.js:196-219 | the property type picks the rule: strings keep their truthy length bounds and their allowed values, numbers both bounds as declared; `boolean`, `object` and `array` each get their own rule; a type outside string, number, boolean, object and array accepts everything |
| ToolSchema.Check | src/server/mcp-tools.js:196-219 | a list of allowed values decides alone; otherwise a value passes exactly when it has the rule's type and lies within its bounds; the any-rule passes everything |
| ToolSchema.StringDeclAccepts | src/server/mcp-tools.js:197-201 | a string property without allowed values accepts exactly the strings within its declared bounds, and a zero bound is no bound |
| ToolSchema.BuildValidator | src/server/mcp-tools.js:186-234 | one field per declared property, in declaration order, with the rule of its type, its default, and the optional mark exactly when it is not in `required` |
| ToolSchema.ValidateFields | src/server/mcp-tools.js:192-234 | input accepted exactly when every present declared field passes its check; a refusal names a field |
| ToolSchema.FilledDefaults | src/server/mcp-tools.js:221-224 | an accepted input gains exactly the defaults of the declared fields it omits, and nothing else |
| ToolSchema.AcceptedCons | src/server/mcp-tools.js:192-219 | a field that is absent or passes its check keeps the rest of an accepted input accepted |
| ToolSchema.FirstFailureReported | src/server/mcp-tools.js:173-177 | a refusal reports the first declared field, in order, that is present and fails its check |
| ToolSchema.ValidateParameters | src/server/mcp-tools.js:172-180 | a non-object is refused; an object is accepted exactly when its present fields pass, and a refused object reports the error of `ValidateFields`, its first failing field; the validated value keeps every given field and adds only declared defaults for omitted ones |
| ToolSchema.OptionalMarksIgnored | src/server/mcp-tools.js:226-229 | validators that differ only in their optional marks validate identically |
| ToolSchema.RequiredListIgnored | src/server/mcp-tools.js:226-229 | the `required` list has no effect on validation, because `.required()` is never applied |
| ToolSchema.ConsoleHelloIsValid | src/server/mcp-tools.js:28-72 | the built-in definition, with its whole `returns` object, passes definition validation |
| ToolSchema.ConsoleHelloValidator | src/server/mcp-tools.js:33-52 | its validator: `message` is a string of 1 to 500 characters defaulting to "Hello World"; `targetTab` is one of `active` and `all`, defaulting to `active` and marked optional |
| ToolSchema.ConsoleHelloDefaults | src/server/mcp-tools.js:36-48 | a call with no parameters validates to both defaults |
| ToolSchema.ConsoleHelloMessageBounds | src/server/mcp-tools.js:36-42 | a message is accepted exactly when it has 1 to 500 characters |
| ToolSchema.ConsoleHelloTargetTab | src/server/mcp-tools.js:43-48 | a target tab is accepted exactly when it is `active` or `all` |
| ToolRegistry.Registry.constructor | src/server/mcp-tools.js:12-21 | the new registry holds only the built-in tool, with fresh counters, and an empty history |
| ToolRegistry.Registry.RegisterTool | src/server/mcp-tools.js:83-106 | an invalid definition is refused and nothing is stored; a valid one is stored under its name with `callCount` 0 and no `lastCalled`, replacing an earlier tool of that name in its place in the order |
| ToolRegistry.Registry.GetTool | src/server/mcp-tools.js:137-139 | the tool is found exactly when it is registered |
| ToolRegistry.Registry.OrderCoversTools | src/server/mcp-tools.js:98 | the insertion order lists every registered tool once |
| ToolRegistry.Registry.ListTools | src/server/mcp-tools.js:144-156 | one entry per registered tool, in registration order, with its definition fields and counters |
| ToolRegistry.Registry.ValidateToolCall | src/server/mcp-tools.js:161-181 | an unknown tool yields "Tool not found: <name>" and the names of all registered tools in registration order, each once; otherwise the call is valid exactly when the tool's parameter validator accepts it, with the validated parameters or the validator's error |
| ToolRegistry.CountCall | src/server/mcp-tools.js:241-245 | only the named tool, when it exists, gets its count raised by one and its last-call time set; every other tool is unchanged |
| ToolRegistry.TotalCalls | src/server/mcp-tools.js:277 | the `reduce` sum of the counters is 0 for no tools |
| ToolRegistry.TotalCallsBound | src/server/mcp-tools.js:277 | no tool's counter exceeds the sum |
| ToolRegistry.Registry.RecordExecution | src/server/mcp-tools.js:240-270 | the counters move as `CountCall` says; one record is always appended to the capped history; the total of all counters rises by one exactly when the tool exists |
| ToolRegistry.TotalCallsUnaffected | src/server/mcp-tools.js:277 | changing a tool outside the summed names leaves the total unchanged |
| ToolRegistry.TotalCallsBump | src/server/mcp-tools.js:277 | raising one listed tool's count by one raises the total by one |
| ToolRegistry.InsertByCalls | src/server/mcp-tools.js:287 | insertion adds exactly the one entry (as a multiset) |
| ToolRegistry.InsertByCallsSorted | src/server/mcp-tools.js:287 | insertion keeps a list sorted by descending call count |
| ToolRegistry.InsertByCallsStable | src/server/mcp-tools.js:287 | insertion puts the new entry ahead of the entries with the same count and keeps their order |
| ToolRegistry.SortByCalls | src/server/mcp-tools.js:287 | the sort result is a permutation of its input, sorted by descending call count, and stable: entries with the same count keep their input order |
| ToolRegistry.Registry.Usages | src/server/mcp-tools.js:283-286 | one usage entry per tool, in registration order |
| ToolRegistry.Registry.GetExecutionStats | src/server/mcp-tools.js:275-291 | `totalExecutions` is the sum of all counters; `recentExecutions` are the newest at most 10 records; `toolUsage` lists every tool once, sorted by descending call count, with ties in registration order |
| McpProtocol.ProtocolHandler.constructor | src/server/mcp-protocol.js:13-19 | empty pending table, no timers, no connections |
| McpProtocol.ProtocolHandler.RegisterExtensionConnection | src/server/mcp-protocol.js:26-38 | the connection joins the set and nothing else changes |
| McpProtocol.ProtocolHandler.ExtensionConnectionClosed | src/server/mcp-protocol.js:30-33 | the closed connection leaves the set and nothing else changes |
| McpProtocol.RequestEnvelope | src/server/mcp-protocol.js:170-179 | the request has type `console_hello` and carries the execution id and the parameters |
| McpProtocol.SendToAll | src/server/mcp-protocol.js:182-192 | the send loop reaches exactly the connections that are open and whose send succeeds, and counts them |
| McpProtocol.ProtocolHandler.ExecuteViaWebSocketExtension | src/server/mcp-protocol.js:142-207 | with no connection it rejects before any entry or timer exists; with recipients it adds exactly one entry and one timer under its id; with connections but no recipient the timer is cleared, the table is as before and it rejects; no other promise is touched and nothing is stranded |
| McpProtocol.ProtocolHandler.TimerFires | src/server/mcp-protocol.js:164-167 | a timeout removes exactly its own entry and timer and rejects with the "timeout after 30000ms" message |
| McpProtocol.ReadResponse | src/server/mcp-protocol.js:212-229 | `null` is unreadable, another type is not for this protocol, a response without a truthy `executionId` is handled but dropped, and anything else is an answer carrying that id |
| McpProtocol.AnsweredId | src/server/mcp-protocol.js:218-229 | an answer names a table key exactly when its id is a string |
| McpProtocol.FinalResultOf | src/server/mcp-protocol.js:242-257 | building the result throws exactly when there is no truthy result and the truthy error cannot be converted to text; otherwise `success` holds exactly when no truthy error came back, the error is kept only then, and the result is the answer's truthy result, else "Error: <error>" or "Execution completed", so it is always truthy |
| McpProtocol.WithOptional | src/server/mcp-protocol.js:250-251 | an undefined property is left out of the object |
| McpProtocol.ResultValue | src/server/mcp-protocol.js:242-257 | the recorded result carries the final result's success flag, result and error |
| McpProtocol.FailedResultValue | src/server/mcp-protocol.js:114-123 | a recorded failure carries `success` false and the error |
| McpProtocol.ProtocolHandler.HandleExtensionResponse | src/server/mcp-protocol.js:212-271 | returns false exactly for another message type; an answer naming a pending execution removes its entry and timer, then resolves the call once with `FinalResultOf`; when that throws or client information is missing, the call is stranded and never settled; every other message changes nothing, so a second answer for a settled id is a no-op; no settled promise changes |
| McpProtocol.Rejections | src/server/mcp-protocol.js:307 | one rejection per swept id, each with the same message |
| McpProtocol.SweepExpired | src/server/mcp-protocol.js:302-310 | the sweep keeps exactly the entries not older than the timeout, rejects exactly the older ones and counts them |
| McpProtocol.SweepKeepsTracked | src/server/mcp-protocol.js:298-317 | the sweep leaves every entry tracked, settles nothing twice and leaves no expired entry |
| McpProtocol.ProtocolHandler.CleanupExpiredExecutions | src/server/mcp-protocol.js:298-317 | removes and rejects exactly the entries older than 30000 ms, with their timers; keeps every other entry; returns how many it removed |
| McpProtocol.ProtocolHandler.GetExecutionStatus | src/server/mcp-protocol.js:276-293 | the pending count, the connection count and one entry per pending execution with its age |
| McpProtocol.ProtocolHandler.GetProtocolHealth | src/server/mcp-protocol.js:322-338 | the status is `healthy`, with the connection, pending and registered-tool counts |
| McpProtocol.ProtocolHandler.ExecuteTool | src/server/mcp-protocol.js:43-137 | a refused call throws with status 400 before any dispatch, with the tool names when the tool is unknown; an unknown handler throws; each failure is recorded once, with the parameters as given; a valid call is dispatched with the validated parameters and waits |
| McpProtocol.ProtocolHandler.ResumeExecution | src/server/mcp-protocol.js:81-135 | once the dispatch is settled, exactly one record is added: a success with the validated parameters and the elapsed time, or a failure with the parameters as given and a rethrow |
| McpClient.OrNumber | src/cli/mcp-client.js:10-11 | a missing or zero option falls back to its default |
| McpClient.StripTrailingSlash | src/cli/mcp-client.js:9 | one trailing slash is removed when there is one; otherwise the URL is unchanged |
| McpClient.OneSlashRemoved | src/cli/mcp-client.js:9 | a URL ending in two slashes keeps one |
| McpClient.MakeConfig | src/cli/mcp-client.js:8-11 | the base URL defaults to `http://localhost:3000` and loses its trailing slash; the timeout defaults to 10000 and the retry count to 3 |
| McpClient.HandleError | src/cli/mcp-client.js:190-209 | in order: a refused connection gives "not running at <url>"; a response gives "<status> - <server message or status text>", unless that message cannot be converted to text, in which case the TypeError "Cannot convert object to primitive value" escapes instead; a request without response gives "Network error"; otherwise the error's own message |
| McpClient.HandleErrorNamesContext | src/cli/mcp-client.js:190-209 | a message starts with "<context>: " exactly when building it did not throw |
| McpClient.TypeErrorNamesNoContext | src/cli/mcp-client.js:198-199 | the conversion TypeError's message never starts with "<context>: " |
| McpClient.HandleErrorTwice | src/cli/mcp-client.js:152 | re-wrapping an already-handled error only adds the outer context |
| McpClient.Pow2 | src/cli/mcp-client.js:178 | a power of two is at least 1 |
| McpClient.Backoff | src/cli/mcp-client.js:178 | every wait is between 1000 and 5000 ms |
| McpClient.Pow2Monotone | src/cli/mcp-client.js:178 | powers of two grow with the exponent |
| McpClient.BackoffSchedule | src/cli/mcp-client.js:178 | the waits are 1000, 2000 and 4000 ms, then 5000 ms from the fourth attempt on |
| McpClient.BackoffMonotone | src/cli/mcp-client.js:178 | no wait is shorter than the one before |
| McpClient.Delays | src/cli/mcp-client.js:173-179 | the k-th wait is the backoff after attempt k |
| McpClient.ExecuteToolWithRetry | src/cli/mcp-client.js:163-184 | at most `maxRetries` attempts, or `retries` when `maxRetries` is falsy; returns the first success, having waited after each earlier failure; with every attempt failed, rethrows the last error, with no wait after the final attempt; with no attempt at all, throws `undefined` |
| McpClient.FormatResult | src/cli/mcp-client.js:216-229 | a missing result gives `{success: false, message: 'No result received'}`; any other result gives exactly six fields, each the result's truthy value or else its default |
| McpClient.OrTwice | src/cli/mcp-client.js:222-227 | falling back to a default twice is falling back once |
| McpClient.FormatResultIdempotent | src/cli/mcp-client.js:216-229 | formatting a formatted result again changes nothing |
| McpClient.FalsyResultIsNotIdempotent | src/cli/mcp-client.js:217-219 | the "No result received" object does not format to itself |
| McpClient.FindByName | src/cli/mcp-client.js:143 | `find` returns the first item with the name, none when no item has it, and throws exactly when a `null` item comes before any match |
| McpClient.ValidateTool | src/cli/mcp-client.js:135-154 | it fails for a discovery error and for a response without an array of tools; over an array it follows `find`: the first match is returned, no match gives "Tool '<name>' not found in registry", and a throwing `find` gives its message, each under "Failed to validate tool: <name>" |
| McpClient.ValidateToolFinds | src/cli/mcp-client.js:139-149 | over a list of tool objects, the lookup succeeds exactly when some tool has the name |
| HelloServer.RouteOf | src/server/server.js:182-204 | a message fails the shape check exactly when it is not an object with a string `type` and, if present, an object `data`; otherwise its route is decided by its type |
| HelloServer.ValidMessage | src/server/server.js:224-235 | the shape check: an object whose `type` is a string and whose `data`, when present, is an object |
| HelloServer.StoredMessagesAreValid | src/server/server.js:182-216 | only messages that pass the shape check reach the history |
| HelloServer.Server.constructor | src/server/server.js:16-25 | no clients, all counters zero, empty history |
| HelloServer.Server.HandleNewConnection | src/server/server.js:113-125 | the socket is registered with `messageCount` 0; both connection counters rise by one |
| HelloServer.Server.HandleWebSocketMessage | src/server/server.js:166-222 | unparsable text and messages from unknown sockets change nothing; any other message is counted for its client and in total, even when it fails the shape check; only stored routes are pushed to the history capped at 100 |
| HelloServer.Server.HandleDisconnection | src/server/server.js:328-335 | a known socket is removed and `activeConnections` drops by one; an unknown socket is a no-op |
| HelloServer.Server.GetStats | src/server/server.js:378-386 | the counters and the newest at most 10 history entries |
| HelloServer.CleanName | src/server/server.js:362 | the cleaned name is the first min(100, length) characters of the trimmed name |
| HelloServer.HelloApi | src/server/server.js:352-375 | a missing, non-string or blank name is refused with 400 "Name is required"; any other name is trimmed and cut to at most 100 characters, non-empty and starting with no white space, and greeted |
| HelloServer.HelloKeepsCleanName | src/server/server.js:355-362 | a trimmed name of at most 100 characters is used unchanged |
| HelloServer.HelloTruncatesLongName | src/server/server.js:362 | a name of 100 or more characters after trimming is cut to its first 100 |
| HelloServer.HelloDependsOnTrim | src/server/server.js:355-362 | two names with the same trim get the same answer |
| HelloServer.HelloIgnoresPadding | src/server/server.js:355-362 | a name with any white space on either side is greeted exactly like its trim |

## Left out

- Transport, HTTP and logging are not modelled: WebSocket sends, `readyState`, pings, Express routing and winston. A send is given as the `open` and `failing` connection sets.
- No clock, ids or randomness: times are the parameter `now`, ids (execution ids, record ids, client ids) are parameters, and ISO timestamps are not kept.
- The WebSocket hello greeting is picked at random and is not modelled. The hello handler's own data check and the reply messages (welcome, pong, stats, error) are not modelled either.
- The extension, the CLI presentation layer and the test harnesses are not part of this model. So are `getToolDiscoveryInfo`, `/health`, `/api/clients` and the MCP HTTP routes of `src/server/server.js`.
- Joi's error wording is not modelled. A parameter error is the structured `ParamError`, and a recorded failure carries it as a structured value.
- Unknown keys: Joi's handling of fields no property declares is not shown by the code. The model accepts such fields and passes them through unchanged.
- Joi's refusal of empty strings and its type conversions (numeric strings to numbers) are not modelled. This also covers an empty `agent` or `executionHandler` in a definition and an empty message `type`.
- Only integers are modelled, not floating-point numbers.
- Object key order is not kept (objects are maps). The pending list of `getExecutionStatus` is therefore a map keyed by id, not an array in insertion order.
- String lengths are counted in code points, not UTF-16 units.
- McpProtocol.ProtocolHandler.ExecuteTool: a failure thrown before the first `await` is recorded with execution time 0, because no time passes in between.
- McpProtocol.ProtocolHandler.CleanupExpiredExecutions: the expired promises are rejected as one step after the loop. This is equivalent, because no promise reaction can run during the synchronous loop.
- Calling `executeTool` with `parameters` left undefined is not modelled; parameters are always a value.
- McpClient.FindByName: the message for a read on `null` uses the wording of V8.
- McpClient.HandleError: the TypeError of an unconvertible server message uses the wording of V8.
- JsValues.Text: the conversion is decided by a JSON value's own data. An object's own `toString` is never callable, since it comes from JSON.
- The built-in tool's property descriptions are not kept. The `description` of each declared parameter is only shown by `listTools`.
- A non-string `baseUrl` and a `null` options object make the client constructor throw; these are not modelled.
- The server's `clientInfo` fields (ip, user agent, connection time) are not modelled, only the id and message count.
- `handleStatsRequest` and uptime are not modelled.
