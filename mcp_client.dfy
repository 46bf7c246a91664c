/** The CLI's MCP client (class MCPClient in src/cli/mcp-client.js): its configuration,
    the retry loop around a tool call, the error messages it builds and the way it
    formats a result. The HTTP calls themselves are not modelled: the outcome of each
    attempt, and the registry's answer, are given as inputs. */
module McpClient {
  import opened JsValues

  const DefaultBaseUrl: string := "http://localhost:3000"
  const DefaultTimeout: int := 10000
  const DefaultRetries: int := 3
  const BaseDelay: nat := 1000
  const MaxDelay: nat := 5000

  /** The options a client is built with; `None` is an option left undefined. */
  datatype ClientOptions = ClientOptions(timeout: Option<int>, retries: Option<int>)

  datatype ClientConfig = ClientConfig(baseUrl: string, timeout: int, retries: int)

  /** `n || fallback` for a number that may be undefined: zero is falsy. */
  function OrNumber(n: Option<int>, fallback: int): (r: int)
    ensures n.Some? && n.value != 0 ==> r == n.value
    ensures n.None? || n.value == 0 ==> r == fallback
  {
    if n.Some? && n.value != 0 then n.value else fallback
  }

  /** `baseUrl.replace(/\/$/, '')`: drops one trailing slash, if there is one. */
  function StripTrailingSlash(url: string): (r: string)
    ensures url != [] && url[|url| - 1] == '/' ==> r + "/" == url
    ensures url == [] || url[|url| - 1] != '/' ==> r == url
  {
    if url != [] && url[|url| - 1] == '/' then url[..|url| - 1] else url
  }

  /** The configuration a client is constructed with: the base URL (by default
      `DefaultBaseUrl`) without its trailing slash, and the timeout and retry count the
      options give, each replaced by its default when it is missing or zero. */
  function MakeConfig(baseUrl: Option<string>, options: ClientOptions): (c: ClientConfig)
    ensures c.baseUrl == StripTrailingSlash(if baseUrl.Some? then baseUrl.value else DefaultBaseUrl)
    ensures c.timeout != 0 && c.retries != 0
    ensures c.timeout == OrNumber(options.timeout, DefaultTimeout)
    ensures c.retries == OrNumber(options.retries, DefaultRetries)
  {
    ClientConfig(
      StripTrailingSlash(if baseUrl.Some? then baseUrl.value else DefaultBaseUrl),
      OrNumber(options.timeout, DefaultTimeout),
      OrNumber(options.retries, DefaultRetries))
  }

  /** Only one slash is removed: a URL that ends in two keeps one. */
  lemma OneSlashRemoved(url: string)
    ensures StripTrailingSlash(url + "//") == url + "/"
  {
    assert (url + "//")[..|url| + 1] == url + "/";
  }

  // ---------------------------------------------------------------------------------
  // Errors
  // ---------------------------------------------------------------------------------

  /** The HTTP response an axios error carries. `data` is `None` when undefined. */
  datatype HttpResponse = HttpResponse(status: int, statusText: string, data: Option<Value>)

  /** An error of an HTTP call: its `code`, its `response`, whether a request went out
      (`error.request` is set), and its message. */
  datatype HttpError = HttpError(code: Option<string>, response: Option<HttpResponse>, request: bool, message: string)

  /** A plain `Error` with only a message, as `_handleError` returns. */
  function PlainError(message: string): HttpError {
    HttpError(None, None, false, message)
  }

  /** The message of the TypeError V8 throws when `${v}` meets a value it cannot convert. */
  const ToPrimitiveMessage: string := "Cannot convert object to primitive value"

  /** The server's message, else the status text, that `_handleError` puts after the
      status of an error response. */
  function ResponseMessage(resp: HttpResponse): Value {
    Or(PropOf(resp.data, "message"), Str(resp.statusText))
  }

  /** Whether `_handleError` itself throws: an error response whose message is a value
      the template string cannot convert. */
  predicate HandleErrorThrows(error: HttpError) {
    error.code != Some("ECONNREFUSED") && error.response.Some?
    && TextThrows(ResponseMessage(error.response.value))
  }

  /** The message of the error that leaves `_handleError`: the one it makes of `error`
      (a refused connection first, then a response with its status and the server's
      message, else the status text, then a request that got no response, and otherwise
      the error's own message), or the TypeError's when building that message throws. */
  function HandleError(error: HttpError, context: string, baseUrl: string): (m: string)
    ensures error.code == Some("ECONNREFUSED") ==> m == context + ": MCP Server is not running at " + baseUrl
    ensures HandleErrorThrows(error) ==> m == ToPrimitiveMessage
    ensures error.code != Some("ECONNREFUSED") && error.response.Some? && !HandleErrorThrows(error) ==>
              var resp := error.response.value;
              m == context + ": " + IntText(resp.status) + " - " + Text(ResponseMessage(resp)).value
    ensures error.code != Some("ECONNREFUSED") && error.response.None? && error.request ==>
              m == context + ": Network error - " + error.message
    ensures error.code != Some("ECONNREFUSED") && error.response.None? && !error.request ==>
              m == context + ": " + error.message
  {
    if error.code == Some("ECONNREFUSED") then context + ": MCP Server is not running at " + baseUrl
    else if error.response.Some? then
      var resp := error.response.value;
      match Text(ResponseMessage(resp))
      case None => ToPrimitiveMessage
      case Some(message) => context + ": " + IntText(resp.status) + " - " + message
    else if error.request then context + ": Network error - " + error.message
    else context + ": " + error.message
  }

  /** The TypeError's message has no colon, so it never starts with a context. */
  lemma TypeErrorNamesNoContext(context: string)
    ensures !(|ToPrimitiveMessage| >= |context| + 2 && ToPrimitiveMessage[..|context| + 2] == context + ": ")
  {
    if |ToPrimitiveMessage| >= |context| + 2 {
      assert forall i :: 0 <= i < |ToPrimitiveMessage| ==> ToPrimitiveMessage[i] != ':';
      assert ToPrimitiveMessage[|context|] != (context + ": ")[|context|];
    }
  }

  /** Every message `_handleError` builds starts with its context; only the TypeError of
      an unconvertible server message does not. */
  lemma HandleErrorNamesContext(error: HttpError, context: string, baseUrl: string)
    ensures var m := HandleError(error, context, baseUrl);
            !HandleErrorThrows(error) <==> |m| >= |context| + 2 && m[..|context| + 2] == context + ": "
  {
    if HandleErrorThrows(error) {
      TypeErrorNamesNoContext(context);
    } else {
      var head := context + ": ";
      if error.code == Some("ECONNREFUSED") {
        StartsWith(head, "MCP Server is not running at " + baseUrl);
      } else if error.response.Some? {
        var resp := error.response.value;
        StartsWith(head, IntText(resp.status) + " - " + Text(ResponseMessage(resp)).value);
      } else if error.request {
        StartsWith(head, "Network error - " + error.message);
      } else {
        StartsWith(head, error.message);
      }
    }
  }

  /** A concatenation starts with its first part. */
  lemma StartsWith(head: string, rest: string)
    ensures |head + rest| >= |head| && (head + rest)[..|head|] == head
  {
  }

  /** Wrapping an error that `_handleError` already made only adds the new context. */
  lemma HandleErrorTwice(error: HttpError, inner: string, outer: string, baseUrl: string)
    ensures HandleError(PlainError(HandleError(error, inner, baseUrl)), outer, baseUrl)
         == outer + ": " + HandleError(error, inner, baseUrl)
  {
  }

  // ---------------------------------------------------------------------------------
  // Retries
  // ---------------------------------------------------------------------------------

  function Pow2(k: nat): (r: nat)
    ensures r >= 1
  {
    if k == 0 then 1 else 2 * Pow2(k - 1)
  }

  /** The wait after failed attempt `attempt` when another attempt follows. */
  function Backoff(attempt: nat): (d: nat)
    requires attempt >= 1
    ensures BaseDelay <= d <= MaxDelay
  {
    Min(BaseDelay * Pow2(attempt - 1), MaxDelay)
  }

  lemma {:induction false} Pow2Monotone(j: nat, k: nat)
    requires j <= k
    ensures Pow2(j) <= Pow2(k)
  {
    if j < k {
      Pow2Monotone(j, k - 1);
    }
  }

  /** The waits double from one second and stay at five seconds from the fourth on. */
  lemma BackoffSchedule(attempt: nat)
    requires attempt >= 1
    ensures attempt == 1 ==> Backoff(attempt) == 1000
    ensures attempt == 2 ==> Backoff(attempt) == 2000
    ensures attempt == 3 ==> Backoff(attempt) == 4000
    ensures attempt >= 4 ==> Backoff(attempt) == MaxDelay
  {
    if attempt >= 4 {
      Pow2Monotone(3, attempt - 1);
    }
  }

  /** No wait is shorter than the one before it. */
  lemma BackoffMonotone(j: nat, k: nat)
    requires 1 <= j <= k
    ensures Backoff(j) <= Backoff(k)
  {
    Pow2Monotone(j - 1, k - 1);
  }

  /** The outcome of one `executeTool` attempt. */
  datatype Attempt = Success(value: Value) | Failure(error: HttpError)

  /** How `executeToolWithRetry` ends: with the first success and its attempt number, or
      by throwing the last error, which is `undefined` when no attempt was made. */
  datatype RetryResult = Succeeded(value: Value, attempts: nat) | GaveUp(lastError: Option<HttpError>)

  /** `maxRetries || this.retries` */
  function AttemptLimit(config: ClientConfig, maxRetries: Option<int>): int {
    OrNumber(maxRetries, config.retries)
  }

  /** The waits after attempts `1` to `n`. */
  function Delays(n: nat): (ds: seq<nat>)
    ensures |ds| == n && forall i :: 0 <= i < n ==> ds[i] == Backoff(i + 1)
  {
    if n == 0 then [] else Delays(n - 1) + [Backoff(n)]
  }

  /** Makes up to `AttemptLimit` attempts, `outcome(k)` being the outcome of attempt `k`,
      and waits `Backoff(k)` after each failed attempt `k` that is not the last. It returns
      the first success, or rethrows the last attempt's error once every attempt failed. */
  method ExecuteToolWithRetry(config: ClientConfig, maxRetries: Option<int>, outcome: nat -> Attempt)
    returns (r: RetryResult, delays: seq<nat>)
    ensures var limit := AttemptLimit(config, maxRetries);
            && (r.Succeeded? <==> exists k :: 1 <= k <= limit && outcome(k).Success?)
            && (r.Succeeded? ==>
                  && 1 <= r.attempts <= limit
                  && outcome(r.attempts) == Success(r.value)
                  && (forall k :: 1 <= k < r.attempts ==> outcome(k).Failure?)
                  && delays == Delays(r.attempts - 1))
            && (r.GaveUp? ==>
                  && (limit <= 0 ==> r.lastError.None? && delays == [])
                  && (limit >= 1 ==> r.lastError == Some(outcome(limit).error) && delays == Delays(limit - 1)))
  {
    var retries := AttemptLimit(config, maxRetries);
    var lastError: Option<HttpError> := None;
    delays := [];
    var attempt := 1;
    while attempt <= retries
      invariant 1 <= attempt && (retries >= 1 ==> attempt <= retries)
      invariant forall k :: 1 <= k < attempt ==> outcome(k).Failure?
      invariant delays == Delays(attempt - 1)
      invariant attempt > 1 ==> lastError == Some(outcome(attempt - 1).error)
      invariant attempt == 1 ==> lastError.None?
      invariant retries < 1 ==> attempt == 1
      decreases retries - attempt
    {
      match outcome(attempt) {
        case Success(value) =>
          return Succeeded(value, attempt), delays;
        case Failure(error) =>
          lastError := Some(error);
          if attempt == retries {
            break;
          }
          delays := delays + [Backoff(attempt)];
      }
      attempt := attempt + 1;
    }
    r := GaveUp(lastError);
  }

  // ---------------------------------------------------------------------------------
  // Results
  // ---------------------------------------------------------------------------------

  const FormattedKeys: set<string> := {"success", "message", "data", "timestamp", "executionTime", "toolName"}

  /** `formatResult`: a missing or falsy result becomes a failure saying none was received;
      any other result becomes exactly six fields, each the result's own truthy value or
      else its default (`timestamp` defaults to the current time `now`). */
  function FormatResult(result: Option<Value>, now: string): (v: Value)
    ensures !Truthy(result) ==> v == Obj(map["success" := Bool(false), "message" := Str("No result received")])
    ensures Truthy(result) ==> v.Obj? && v.fields.Keys == FormattedKeys
    ensures Truthy(result) ==>
              var r := result.value;
              && v.fields["success"] == Or(Prop(r, "success"), Bool(false))
              && v.fields["message"] == Or(Prop(r, "message"), Str("No message"))
              && v.fields["data"] == Or(Prop(r, "data"), Null)
              && v.fields["timestamp"] == Or(Prop(r, "timestamp"), Str(now))
              && v.fields["executionTime"] == Or(Prop(r, "executionTime"), Null)
              && v.fields["toolName"] == Or(Prop(r, "toolName"), Str("unknown"))
  {
    if !Truthy(result) then Obj(map["success" := Bool(false), "message" := Str("No result received")])
    else
      var r := result.value;
      Obj(map[
        "success" := Or(Prop(r, "success"), Bool(false)),
        "message" := Or(Prop(r, "message"), Str("No message")),
        "data" := Or(Prop(r, "data"), Null),
        "timestamp" := Or(Prop(r, "timestamp"), Str(now)),
        "executionTime" := Or(Prop(r, "executionTime"), Null),
        "toolName" := Or(Prop(r, "toolName"), Str("unknown"))])
  }

  /** `a || d` applied twice is `a || d` once, for any default `d`. */
  lemma OrTwice(a: Option<Value>, d: Value)
    ensures Or(Some(Or(a, d)), d) == Or(a, d)
  {
  }

  /** Formatting a formatted result again changes nothing. A falsy result is the exception:
      its two-field failure is itself a truthy result and so gains the other four fields. */
  lemma FormatResultIdempotent(result: Option<Value>, now: string)
    requires Truthy(result)
    ensures FormatResult(Some(FormatResult(result, now)), now) == FormatResult(result, now)
  {
    var v := FormatResult(result, now);
    var w := FormatResult(Some(v), now);
    var r := result.value;
    OrTwice(Prop(r, "success"), Bool(false));
    OrTwice(Prop(r, "message"), Str("No message"));
    OrTwice(Prop(r, "data"), Null);
    OrTwice(Prop(r, "timestamp"), Str(now));
    OrTwice(Prop(r, "executionTime"), Null);
    OrTwice(Prop(r, "toolName"), Str("unknown"));
    forall key | key in FormattedKeys ensures w.fields[key] == v.fields[key] {
      assert Prop(v, key) == Some(v.fields[key]);
    }
    assert w.fields == v.fields;
  }

  lemma FalsyResultIsNotIdempotent(now: string)
    ensures FormatResult(Some(FormatResult(None, now)), now) != FormatResult(None, now)
  {
    var v := FormatResult(None, now);
    assert "toolName" !in v.fields;
  }

  // ---------------------------------------------------------------------------------
  // Tool lookup
  // ---------------------------------------------------------------------------------

  /** V8's message for a property read on `null`. */
  function NullReadMessage(key: string): string {
    "Cannot read properties of null (reading '" + key + "')"
  }

  /** `items.find(t => t.name === name)`: the first item named `name`; reading the name of
      a `null` item before it throws. */
  function FindByName(items: seq<Value>, name: string): (r: Result<Option<Value>, string>)
    ensures r.Ok? && r.value.Some? ==>
              exists i :: 0 <= i < |items| && items[i] == r.value.value
                          && Prop(items[i], "name") == Some(Str(name))
                          && forall j :: 0 <= j < i ==> !items[j].Null? && Prop(items[j], "name") != Some(Str(name))
    ensures r.Ok? && r.value.None? ==>
              forall j :: 0 <= j < |items| ==> !items[j].Null? && Prop(items[j], "name") != Some(Str(name))
    ensures r.Err? ==>
              && r.error == NullReadMessage("name")
              && exists i :: 0 <= i < |items| && items[i].Null?
                             && forall j :: 0 <= j < i ==> !items[j].Null? && Prop(items[j], "name") != Some(Str(name))
  {
    if items == [] then Ok(None)
    else if items[0].Null? then Err(NullReadMessage("name"))
    else if Prop(items[0], "name") == Some(Str(name)) then Ok(Some(items[0]))
    else
      var rest := FindByName(items[1..], name);
      assert forall j :: 1 <= j < |items| ==> items[j] == items[1..][j - 1];
      rest
  }

  const DiscoverContext: string := "Failed to discover MCP tools"

  /** `validateTool`: looks the tool up in the registry's answer (`discovered`, the outcome
      of `discoverTools`' HTTP call) and returns it, or fails with a message that says
      what went wrong under "Failed to validate tool: <name>". */
  function ValidateTool(config: ClientConfig, name: string, discovered: Result<Value, HttpError>): (r: Result<Value, string>)
    ensures var context := "Failed to validate tool: " + name;
            && (discovered.Err? ==>
                  r == Err(context + ": " + HandleError(discovered.error, DiscoverContext, config.baseUrl)))
            && (discovered.Ok? && discovered.value.Null? ==> r == Err(context + ": " + NullReadMessage("tools")))
            && (discovered.Ok? && !discovered.value.Null? &&
                !(Truthy(Prop(discovered.value, "tools")) && Prop(discovered.value, "tools").value.Arr?) ==>
                  r == Err(context + ": Invalid tools registry response"))
    ensures var context := "Failed to validate tool: " + name;
            discovered.Ok? && !discovered.value.Null? &&
            Truthy(Prop(discovered.value, "tools")) && Prop(discovered.value, "tools").value.Arr? ==>
              var found := FindByName(Prop(discovered.value, "tools").value.items, name);
              && (found.Err? ==> r == Err(context + ": " + found.error))
              && (found == Ok(None) ==> r == Err(context + ": Tool '" + name + "' not found in registry"))
              && (found.Ok? && found.value.Some? ==> r == Ok(found.value.value))
    ensures r.Ok? ==>
              && discovered.Ok? && Prop(discovered.value, "tools").Some?
              && Prop(discovered.value, "tools").value.Arr?
              && r.value in Prop(discovered.value, "tools").value.items
              && Prop(r.value, "name") == Some(Str(name))
  {
    var context := "Failed to validate tool: " + name;
    match discovered
    case Err(e) =>
      HandleErrorTwice(e, DiscoverContext, context, config.baseUrl);
      Err(HandleError(PlainError(HandleError(e, DiscoverContext, config.baseUrl)), context, config.baseUrl))
    case Ok(data) =>
      if data.Null? then Err(context + ": " + NullReadMessage("tools"))
      else
        var tools := Prop(data, "tools");
        if !Truthy(tools) || !tools.value.Arr? then Err(context + ": Invalid tools registry response")
        else
          match FindByName(tools.value.items, name)
          case Err(message) => Err(context + ": " + message)
          case Ok(None) => Err(context + ": Tool '" + name + "' not found in registry")
          case Ok(Some(tool)) => Ok(tool)
  }

  /** A registry answer listing only tools that are objects yields the tool exactly when
      one of them has the requested name. */
  lemma ValidateToolFinds(config: ClientConfig, name: string, items: seq<Value>)
    requires forall j :: 0 <= j < |items| ==> items[j].Obj?
    ensures var r := ValidateTool(config, name, Ok(Obj(map["tools" := Arr(items)])));
            r.Ok? <==> exists j :: 0 <= j < |items| && Prop(items[j], "name") == Some(Str(name))
  {
    var r := ValidateTool(config, name, Ok(Obj(map["tools" := Arr(items)])));
    if r.Ok? {
      var j :| 0 <= j < |items| && items[j] == r.value;
      assert Prop(items[j], "name") == Some(Str(name));
    }
  }
}
