/** The Hello World MCP server (class HelloWorldMCPServer in src/server/server.js): its
    WebSocket client table and counters, the history of the last messages it routed, the
    shape check on incoming messages, and the REST `/api/hello` and `/api/stats`
    endpoints. Sockets are identified by `ConnId`; a message arrives already parsed,
    `None` standing for text that is not JSON. */
module HelloServer {
  import opened JsValues
  import History

  type ConnId = nat

  const HistoryCapacity: nat := 100
  const RecentCount: nat := 10
  const NameLimit: nat := 100
  const NameRequired: string := "Name is required"
  const RestGreetingSuffix: string := "! This greeting comes from Mike's REST API endpoint! \U{1F3AF}"

  /** What the server keeps per connected socket. */
  datatype ClientInfo = ClientInfo(id: string, messageCount: nat)

  /** One entry of the message history; `data` is `None` when the message had none. */
  datatype HistoryEntry = HistoryEntry(clientId: string, messageType: string, data: Option<Value>)

  /** What `handleWebSocketMessage` does with a message. A `hello_request` without data
      makes the hello handler throw, which the message handler catches; it gets an error
      reply like an unparsable message, but only after it was counted. */
  datatype Route =
    | Unparsable
    | UnknownClient
    | InvalidFormat
    | HelloWithoutData
    | HelloRequest
    | Ping
    | StatsRequest
    | UnknownType

  /** The message shape check: an object whose `type` is a string and whose `data`, when
      present, is an object. */
  predicate ValidMessage(message: Value) {
    && message.Obj?
    && "type" in message.fields && message.fields["type"].Str?
    && ("data" !in message.fields || message.fields["data"].Obj?)
  }

  /** The route of a message from a known client. */
  function RouteOf(message: Value): (r: Route)
    ensures !r.Unparsable? && !r.UnknownClient?
    ensures r.InvalidFormat? <==> !ValidMessage(message)
    ensures ValidMessage(message) ==>
              var t := message.fields["type"].s;
              && (r.HelloWithoutData? <==> t == "hello_request" && "data" !in message.fields)
              && (r.HelloRequest? <==> t == "hello_request" && "data" in message.fields)
              && (r.Ping? <==> t == "ping")
              && (r.StatsRequest? <==> t == "get_stats")
              && (r.UnknownType? <==> t !in {"hello_request", "ping", "get_stats"})
  {
    if !ValidMessage(message) then InvalidFormat
    else
      match message.fields["type"].s
      case "hello_request" => if "data" in message.fields then HelloRequest else HelloWithoutData
      case "ping" => Ping
      case "get_stats" => StatsRequest
      case _ => UnknownType
  }

  /** Whether a message on this route reaches the history: those that passed the shape
      check and whose handler returned. */
  predicate Stored(r: Route) {
    r.HelloRequest? || r.Ping? || r.StatsRequest? || r.UnknownType?
  }

  lemma StoredMessagesAreValid(message: Value)
    ensures Stored(RouteOf(message)) ==> ValidMessage(message)
    ensures !ValidMessage(message) ==> !Stored(RouteOf(message))
  {
  }

  datatype StatsReport = StatsReport(
    totalConnections: nat,
    activeConnections: nat,
    totalMessages: nat,
    recentMessages: seq<HistoryEntry>)

  class Server {
    var clients: map<ConnId, ClientInfo>
    var totalConnections: nat
    var activeConnections: nat
    var totalMessages: nat
    var messageHistory: seq<HistoryEntry>

    /** `activeConnections` counts the sockets in the client table, never more than the
        connections ever made; the history is within its capacity. */
    ghost predicate Valid()
      reads this
    {
      && activeConnections == |clients|
      && activeConnections <= totalConnections
      && |messageHistory| <= HistoryCapacity
    }

    constructor ()
      ensures Valid()
      ensures clients == map[] && messageHistory == []
      ensures totalConnections == 0 && activeConnections == 0 && totalMessages == 0
    {
      clients := map[];
      totalConnections, activeConnections, totalMessages := 0, 0, 0;
      messageHistory := [];
    }

    /** A new socket `ws` (one the table does not hold yet) is registered under a fresh
        client id with no messages; both connection counters go up by one. */
    method HandleNewConnection(ws: ConnId, clientId: string)
      requires Valid()
      requires ws !in clients
      modifies this
      ensures Valid()
      ensures clients == old(clients)[ws := ClientInfo(clientId, 0)]
      ensures totalConnections == old(totalConnections) + 1
      ensures activeConnections == old(activeConnections) + 1
      ensures totalMessages == old(totalMessages) && messageHistory == old(messageHistory)
    {
      clients := clients[ws := ClientInfo(clientId, 0)];
      totalConnections := totalConnections + 1;
      activeConnections := activeConnections + 1;
    }

    /** Handles a message on socket `ws`. Text that is not JSON, and any message from a
        socket that is not registered, changes nothing. Any other message is counted, for
        its client and in total, before it is checked; it reaches the history, which keeps
        the newest `HistoryCapacity` entries, only when it passed the shape check and its
        handler returned. */
    method HandleWebSocketMessage(ws: ConnId, parsed: Option<Value>) returns (route: Route)
      requires Valid()
      modifies this
      ensures Valid()
      ensures parsed.None? ==> route == Unparsable
      ensures parsed.Some? && ws !in old(clients) ==> route == UnknownClient
      ensures parsed.Some? && ws in old(clients) ==> route == RouteOf(parsed.value)
      ensures parsed.None? || ws !in old(clients) ==>
                clients == old(clients) && totalMessages == old(totalMessages)
                && messageHistory == old(messageHistory)
      ensures parsed.Some? && ws in old(clients) ==>
                && clients == old(clients)[ws := old(clients)[ws].(messageCount := old(clients)[ws].messageCount + 1)]
                && totalMessages == old(totalMessages) + 1
      ensures Stored(route) ==>
                messageHistory == History.PushCapped(old(messageHistory),
                  HistoryEntry(old(clients)[ws].id, parsed.value.fields["type"].s, Prop(parsed.value, "data")),
                  HistoryCapacity)
      ensures !Stored(route) ==> messageHistory == old(messageHistory)
      ensures totalConnections == old(totalConnections) && activeConnections == old(activeConnections)
    {
      if parsed.None? {
        return Unparsable;
      }
      var message := parsed.value;
      if ws !in clients {
        return UnknownClient;
      }
      var client := clients[ws];
      var counted := client.(messageCount := client.messageCount + 1);
      clients := clients[ws := counted];
      totalMessages := totalMessages + 1;
      route := RouteOf(message);
      if Stored(route) {
        messageHistory := messageHistory + [HistoryEntry(counted.id, message.fields["type"].s, Prop(message, "data"))];
        if |messageHistory| > HistoryCapacity {
          messageHistory := messageHistory[1..];
        }
      }
    }

    /** A registered socket closes: it leaves the table and one fewer connection is
        active. Closing a socket the table does not hold changes nothing. */
    method HandleDisconnection(ws: ConnId)
      requires Valid()
      modifies this
      ensures Valid()
      ensures ws in old(clients) ==>
                clients == old(clients) - {ws} && activeConnections == old(activeConnections) - 1
      ensures ws !in old(clients) ==> clients == old(clients) && activeConnections == old(activeConnections)
      ensures totalConnections == old(totalConnections) && totalMessages == old(totalMessages)
      ensures messageHistory == old(messageHistory)
    {
      if ws in clients {
        activeConnections := activeConnections - 1;
        clients := clients - {ws};
      }
    }

    /** `/api/stats`: the counters and at most the newest `RecentCount` history entries. */
    function GetStats(): (r: StatsReport)
      reads this
      requires Valid()
      ensures r.activeConnections == |clients| <= r.totalConnections
      ensures r.totalConnections == totalConnections && r.totalMessages == totalMessages
      ensures |r.recentMessages| == Min(RecentCount, |messageHistory|)
      ensures r.recentMessages == messageHistory[|messageHistory| - |r.recentMessages|..]
    {
      StatsReport(totalConnections, activeConnections, totalMessages, History.LastN(messageHistory, RecentCount))
    }
  }

  // ---------------------------------------------------------------------------------
  // POST /api/hello
  // ---------------------------------------------------------------------------------

  datatype HelloGreeting = HelloGreeting(greeting: string, userName: string)

  datatype ApiError = ApiError(status: nat, error: string)

  /** `name.trim().substring(0, 100)` */
  function CleanName(name: string): (r: string)
    ensures |r| == Min(NameLimit, |Trim(name)|) && r == Trim(name)[..|r|]
  {
    Prefix(Trim(name), NameLimit)
  }

  /** `/api/hello`: a body whose `name` is missing, not a string or blank is refused with
      400 "Name is required"; any other name is trimmed, cut to its first 100 characters
      and greeted. */
  function HelloApi(body: Value): (r: Result<HelloGreeting, ApiError>)
    ensures var name := Prop(body, "name");
            r.Ok? <==> name.Some? && name.value.Str? && Trim(name.value.s) != ""
    ensures r.Err? ==> r.error == ApiError(400, NameRequired)
    ensures r.Ok? ==>
              var userName := r.value.userName;
              && userName == CleanName(Prop(body, "name").value.s)
              && 1 <= |userName| <= NameLimit
              && !IsJsSpace(userName[0])
              && r.value.greeting == "Hello " + userName + RestGreetingSuffix
  {
    var name := Prop(body, "name");
    if name.None? || !Truthy(name) || !name.value.Str? || |Trim(name.value.s)| == 0 then
      Err(ApiError(400, NameRequired))
    else
      var userName := CleanName(name.value.s);
      Ok(HelloGreeting("Hello " + userName + RestGreetingSuffix, userName))
  }

  /** A name that is already trimmed and at most 100 characters long is used as it is. */
  lemma HelloKeepsCleanName(name: string)
    requires name != [] && !IsJsSpace(name[0]) && !IsJsSpace(name[|name| - 1])
    requires |name| <= NameLimit
    ensures HelloApi(Obj(map["name" := Str(name)])).Ok?
    ensures HelloApi(Obj(map["name" := Str(name)])).value.userName == name
  {
    var body := Obj(map["name" := Str(name)]);
    assert Prop(body, "name") == Some(Str(name));
    TrimOfTrimmed(name);
    var userName := CleanName(name);
    assert |userName| == |name|;
    assert userName == name[..|name|] == name;
  }

  /** A name of more than 100 characters after trimming is cut to exactly 100. */
  lemma HelloTruncatesLongName(name: string)
    requires |Trim(name)| >= NameLimit
    ensures HelloApi(Obj(map["name" := Str(name)])).Ok?
    ensures |HelloApi(Obj(map["name" := Str(name)])).value.userName| == NameLimit
    ensures HelloApi(Obj(map["name" := Str(name)])).value.userName == Trim(name)[..NameLimit]
  {
  }

  /** The greeting depends on the name only through its trim. */
  lemma HelloDependsOnTrim(x: string, y: string)
    requires Trim(x) == Trim(y)
    ensures HelloApi(Obj(map["name" := Str(x)])) == HelloApi(Obj(map["name" := Str(y)]))
  {
    var xBody := Obj(map["name" := Str(x)]);
    var yBody := Obj(map["name" := Str(y)]);
    assert Prop(xBody, "name") == Some(Str(x));
    assert Prop(yBody, "name") == Some(Str(y));
    if |Trim(x)| == 0 {
      assert HelloApi(xBody) == Err(ApiError(400, NameRequired));
      assert HelloApi(yBody) == Err(ApiError(400, NameRequired));
    } else {
      var n := CleanName(x);
      assert n == CleanName(y);
      assert HelloApi(xBody) == Ok(HelloGreeting("Hello " + n + RestGreetingSuffix, n));
      assert HelloApi(yBody) == Ok(HelloGreeting("Hello " + n + RestGreetingSuffix, n));
    }
  }

  /** Surrounding white space never reaches the greeting: a padded name is greeted as the
      unpadded one. */
  lemma HelloIgnoresPadding(pre: string, name: string, post: string)
    requires AllJsSpace(pre) && AllJsSpace(post)
    ensures HelloApi(Obj(map["name" := Str(pre + name + post)])) == HelloApi(Obj(map["name" := Str(Trim(name))]))
  {
    TrimPadded(pre, name, post);
    TrimIdempotent(name);
    HelloDependsOnTrim(pre + name + post, Trim(name));
  }
}
