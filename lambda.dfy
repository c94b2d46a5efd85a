/** The AWS Lambda entry point of the HTTP deployment: CORS preflight,
    the POST-only rule, the JSON-RPC envelope around the two methods the
    server answers, and the catch-all that turns any failure into a
    JSON-RPC internal error. */
module Lambda {
  import opened Json
  import opened Catalogue
  import opened ToolCall

  /** The fields of the API Gateway event the handler reads; `body` is
      `None` when the event carries none. */
  datatype Event = Event(httpMethod: string, body: Option<string>)

  datatype Header = Header(name: string, value: string)

  /** The three CORS headers every response carries. */
  const CorsHeaders: seq<Header> := [
    Header("Access-Control-Allow-Origin", "*"),
    Header("Access-Control-Allow-Methods", "GET, POST, OPTIONS"),
    Header("Access-Control-Allow-Headers", "Content-Type, Authorization")
  ]

  /** What a JSON-RPC method returns: the tool list or a call's result. */
  datatype RpcResult = ToolList(tools: seq<Tool>) | ToolResult(result: CallResult)

  /** The value handed to `JSON.stringify` for the response body:
      nothing (the empty string), `{ error }`, a JSON-RPC success
      `{ jsonrpc: '2.0', id, result }` or a JSON-RPC error
      `{ jsonrpc: '2.0', id, error: { code, message } }`. */
  datatype Payload =
    | NoBody
    | ErrorMessage(error: string)
    | Success(id: Value, result: RpcResult)
    | Failure(id: Value, code: int, message: string)

  datatype Response = Response(statusCode: int, headers: seq<Header>, body: Payload)

  /** What `server.requestHandler(m, p)` does: run the handler the module
      registered for `m` with `p` as its request's `params`, or throw
      without running any (the SDK's `Server` is not part of this model,
      and the module registers its handlers under plain method names). */
  datatype SdkDispatch = RunsRegistered | Throws

  /** The handler's environment: `JSON.parse` (`None` when it throws),
      the SDK's dispatch, and what the tool calls need. */
  datatype Gateway = Gateway(parse: string -> Option<Value>, sdk: SdkDispatch, host: Host)

  const InternalErrorCode := -32603

  /** `JSON.parse(event.body)`: a missing body is the text `undefined`,
      which does not parse. */
  function Parsed(gateway: Gateway, body: Option<string>): Option<Value> {
    match body
    case None => None
    case Some(text) => gateway.parse(text)
  }

  /** `body.id || 1` of a success: the request's id when truthy, else 1;
      never a falsy id. */
  function ResponseId(body: Value): (id: Value)
    ensures Truthy(id)
    ensures Truthy(Prop(body, "id")) ==> id == Prop(body, "id")
    ensures !Truthy(Prop(body, "id")) ==> id == Num(1.0)
  {
    OrElse(Prop(body, "id"), Num(1.0))
  }

  /** The unparsed body as a JavaScript value: a string, or `undefined`. */
  function RawBody(body: Option<string>): Value {
    match body
    case None => Undefined
    case Some(text) => Str(text)
  }

  /** `event.body?.id || 1` of the error response. `event.body` is the
      raw text, whose `id` is always `undefined`, so the id is always 1. */
  function FailureId(body: Option<string>): (id: Value)
    ensures id == Num(1.0)
  {
    OrElse(Prop(RawBody(body), "id"), Num(1.0))
  }

  /** The 500 response of the `catch`: a JSON-RPC internal error whose id
      is always 1. */
  function InternalError(event: Event): (r: Response)
    ensures r == Response(500, CorsHeaders, Failure(Num(1.0), -32603, "Internal error"))
  {
    Response(500, CorsHeaders, Failure(FailureId(event.body), InternalErrorCode, "Internal error"))
  }

  /** `await server.requestHandler(rpcMethod, p)` for the two methods the
      handler forwards, with `p` the request's `params` for `tools/call`;
      `None` is a throw. The `tools/call` handler throws when it cannot
      destructure `params` (`undefined` or `null`) or when its name
      cannot be converted to text. */
  function RequestHandler(gateway: Gateway, rpcMethod: Value, params: Value): (r: Option<RpcResult>)
    ensures r.None? <==>
      || gateway.sdk.Throws?
      || (rpcMethod != Str("tools/list") && (!Destructurable(params) || !Convertible(Prop(params, "name"))))
    ensures r.Some? && rpcMethod == Str("tools/list") ==> r.value == ToolList(Tools)
    ensures r.Some? && rpcMethod != Str("tools/list") ==>
      r.value.ToolResult? && r.value.result.content != []
  {
    if gateway.sdk.Throws? then None
    else if rpcMethod == Str("tools/list") then Some(ToolList(ListTools()))
    else if !Destructurable(params) then None
    else
      match CallTool(Http, gateway.host, Prop(params, "name"), Prop(params, "arguments"))
      case None => None
      case Some(result) => Some(ToolResult(result))
  }

  /** `exports.handler`: preflight, the POST-only rule, then the JSON-RPC
      routing inside a `try` whose `catch` answers 500. */
  function Handle(gateway: Gateway, event: Event): (r: Response)
    ensures r.headers == CorsHeaders
    ensures r.statusCode in {200, 400, 405, 500}
    ensures r.statusCode == 200 <==> r.body.NoBody? || r.body.Success?
    ensures r.statusCode == 500 <==> r.body.Failure?
    ensures r.body.Failure? ==> r.body == Failure(Num(1.0), -32603, "Internal error")
    ensures r.body.Success? ==> Truthy(r.body.id)
  {
    if event.httpMethod == "OPTIONS" then Response(200, CorsHeaders, NoBody)
    else if event.httpMethod != "POST" then Response(405, CorsHeaders, ErrorMessage("Method not allowed"))
    else
      match Parsed(gateway, event.body)
      case None => InternalError(event)
      case Some(body) =>
        if !Destructurable(body) then InternalError(event)
        else
          var rpcMethod := Prop(body, "method");
          if rpcMethod != Str("tools/list") && rpcMethod != Str("tools/call") then
            Response(400, CorsHeaders, ErrorMessage("Unknown method"))
          else
            match RequestHandler(gateway, rpcMethod, Prop(body, "params"))
            case None => InternalError(event)
            case Some(result) => Response(200, CorsHeaders, Success(ResponseId(body), result))
  }

  // ---------------------------------------------------------------------
  // Routing

  /** A preflight request is answered 200 with an empty body, whatever
      it carries. */
  lemma PreflightAnswered(gateway: Gateway, event: Event)
    requires event.httpMethod == "OPTIONS"
    ensures Handle(gateway, event) == Response(200, CorsHeaders, NoBody)
  {
  }

  /** Every method other than OPTIONS and POST is refused with 405. */
  lemma OnlyPostServed(gateway: Gateway, event: Event)
    requires event.httpMethod != "OPTIONS" && event.httpMethod != "POST"
    ensures Handle(gateway, event) == Response(405, CorsHeaders, ErrorMessage("Method not allowed"))
  {
  }

  /** A well-formed request naming neither JSON-RPC method is refused
      with 400. */
  lemma UnknownRpcMethodRefused(gateway: Gateway, event: Event, body: Value)
    requires event.httpMethod == "POST" && Parsed(gateway, event.body) == Some(body) && Destructurable(body)
    requires Prop(body, "method") != Str("tools/list") && Prop(body, "method") != Str("tools/call")
    ensures Handle(gateway, event) == Response(400, CorsHeaders, ErrorMessage("Unknown method"))
  {
  }

  /** The 500 response is given exactly to a POST whose body is missing,
      does not parse or parses to `null`; to a JSON-RPC method the SDK
      dispatch throws on; and to a `tools/call` whose `params` is `null`
      or missing, or whose name cannot be converted to text. */
  lemma FailsExactlyOnMalformedRequests(gateway: Gateway, event: Event)
    ensures Handle(gateway, event).statusCode == 500 <==>
      && event.httpMethod == "POST"
      && match Parsed(gateway, event.body)
         case None => true
         case Some(body) =>
           var rpcMethod := Prop(body, "method");
           var params := Prop(body, "params");
           || !Destructurable(body)
           || ((rpcMethod == Str("tools/list") || rpcMethod == Str("tools/call")) && gateway.sdk.Throws?)
           || (rpcMethod == Str("tools/call") && (!Destructurable(params) || !Convertible(Prop(params, "name"))))
  {
  }

  // ---------------------------------------------------------------------
  // The two JSON-RPC methods

  /** A JSON-RPC method the SDK dispatch throws on is answered 500. */
  lemma SdkFailureIsInternalError(gateway: Gateway, event: Event, body: Value)
    requires event.httpMethod == "POST" && Parsed(gateway, event.body) == Some(body) && Destructurable(body)
    requires Prop(body, "method") == Str("tools/list") || Prop(body, "method") == Str("tools/call")
    requires gateway.sdk.Throws?
    ensures Handle(gateway, event) == InternalError(event)
  {
  }

  /** Where the SDK runs the registered handler, `tools/list` answers the
      whole catalogue under the request's id (1 when that id is falsy). */
  lemma ListAnswersCatalogue(gateway: Gateway, event: Event, body: Value)
    requires event.httpMethod == "POST" && Parsed(gateway, event.body) == Some(body) && Destructurable(body)
    requires Prop(body, "method") == Str("tools/list") && gateway.sdk.RunsRegistered?
    ensures Handle(gateway, event) == Response(200, CorsHeaders, Success(ResponseId(body), ToolList(Tools)))
  {
  }

  /** Where the SDK runs the registered handler, `tools/call` answers the
      result of the call handler for the `name` and `arguments` of
      `params`, and 500 where that handler throws. */
  lemma CallAnswersTool(gateway: Gateway, event: Event, body: Value)
    requires event.httpMethod == "POST" && Parsed(gateway, event.body) == Some(body) && Destructurable(body)
    requires Prop(body, "method") == Str("tools/call") && Destructurable(Prop(body, "params"))
    requires gateway.sdk.RunsRegistered?
    ensures var params := Prop(body, "params");
      var result := CallTool(Http, gateway.host, Prop(params, "name"), Prop(params, "arguments"));
      && (result.Some? ==>
            Handle(gateway, event) == Response(200, CorsHeaders, Success(ResponseId(body), ToolResult(result.value))))
      && (result.None? ==> Handle(gateway, event) == InternalError(event))
  {
  }

  /** Where the SDK runs the registered handler, a call over HTTP is
      answered 200 exactly when the same call on the stdio server gives a
      result, and then reports an error exactly when that result does. */
  lemma CallFailsAsOnStdio(gateway: Gateway, event: Event, body: Value)
    requires event.httpMethod == "POST" && Parsed(gateway, event.body) == Some(body) && Destructurable(body)
    requires Prop(body, "method") == Str("tools/call") && Destructurable(Prop(body, "params"))
    requires gateway.sdk.RunsRegistered?
    ensures var params := Prop(body, "params");
      var stdio := CallTool(Stdio, gateway.host, Prop(params, "name"), Prop(params, "arguments"));
      var r := Handle(gateway, event);
      && (r.statusCode == 200 <==> stdio.Some?)
      && (stdio.Some? ==>
            && r.body.Success?
            && r.body.result.ToolResult?
            && r.body.result.result.isError == stdio.value.isError)
  {
    var params := Prop(body, "params");
    ServersAgree(gateway.host, Prop(params, "name"), Prop(params, "arguments"));
  }
}
