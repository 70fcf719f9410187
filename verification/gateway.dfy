/**
  * The HTTP gateway: the authentication middleware, the relay to the
  * automation engine's webhooks, and the route handlers that build each
  * action's payload. The identity provider's and the upstream's answers are
  * parameters, and every step returns the outbound calls it made, so that
  * "no call on this path" can be stated.
  */
module Gateway {
  import opened Wrappers
  import opened Js
  import Text

  /** The identity the provider returns for a valid token. */
  datatype User = User(id: string)

  /** The provider's `error` object: status and message, either of which may be absent. */
  datatype ProviderError = ProviderError(status: Option<int>, message: Option<string>)

  /** What `supabase.auth.getUser(token)` gives: a reply `{ data: { user }, error }`, or an exception. */
  datatype ProviderResult =
    | Reply(error: Option<ProviderError>, user: Option<User>)
    | Threw

  /** What `axios.post(webhookUrl, payload)` ends in. */
  datatype UpstreamResult =
    | Delivered(data: Value)             // a 2xx response
    | Rejected(status: int, data: Value) // a thrown error that carries `error.response`
    | Unreachable                        // a thrown error without a response

  /** One outbound call: to the identity provider, or to an automation webhook. */
  datatype Call = ProviderCall(token: Value) | UpstreamCall(url: string, payload: Value)

  /** A step's result together with the outbound calls it made, in order. */
  datatype Traced<T> = Traced(result: T, calls: seq<Call>)

  /** The middleware's decision: call the handler with this user (`req.user = user; next()`), or answer now. */
  datatype Gate = Proceed(user: User) | Halt(response: Response)

  /** `!authHeader` */
  predicate HeaderMissing(header: Option<string>) {
    header.None? || header.value == ""
  }

  /**
    * `authHeader.split(' ')[1]`: the text between the first and the second
    * space, undefined when the header has no space at all.
    */
  function BearerToken(header: string): (token: Value)
    ensures token.Undefined? || token.Str?
    ensures token.Undefined? <==> ' ' !in header
    ensures token.Str? ==> ' ' !in token.s
  {
    Text.SplitIntoOne(header, ' ');
    var parts := Text.Split(header, ' ');
    if |parts| > 1 then Str(parts[1]) else Undefined
  }

  /** The token is the second space-separated word of the header. */
  lemma BearerTokenOfHeader(token: string)
    requires ' ' !in token
    ensures BearerToken("Bearer " + token) == Str(token)
  {
    SplitWord("Bearer", token, ' ');
    SplitWithoutSeparator(token, ' ');
    assert "Bearer " + token == "Bearer" + [' '] + token;
  }

  lemma {:induction false} SplitWithoutSeparator(s: string, sep: char)
    requires sep !in s
    ensures Text.Split(s, sep) == [s]
  {
    if s != [] {
      assert s == [s[0]] + s[1..];
      assert sep !in s[1..];
      SplitWithoutSeparator(s[1..], sep);
    }
  }

  /** A separator-free word followed by the separator splits off as the first piece. */
  lemma {:induction false} SplitWord(w: string, rest: string, sep: char)
    requires sep !in w
    ensures Text.Split(w + [sep] + rest, sep) == [w] + Text.Split(rest, sep)
  {
    if w != [] {
      assert (w + [sep] + rest)[1..] == w[1..] + [sep] + rest;
      assert sep !in w[1..];
      SplitWord(w[1..], rest, sep);
      assert w == [w[0]] + w[1..];
    } else {
      assert [sep] + rest == [sep] + rest;
      assert ([sep] + rest)[1..] == rest;
    }
  }

  /**
    * An error reported by the provider. It is an authentication failure (401)
    * when its status is 401 or 403 or its message mentions "Invalid" or
    * "expired"; any other error is the provider's fault (500). A message that is
    * absent makes `error.message.includes` throw, and the catch answers 500.
    */
  function ProviderErrorResponse(e: ProviderError): (r: Response)
    ensures r.status == 401 <==>
      e.status == Some(401) || e.status == Some(403)
      || (e.message.Some? && (Text.Contains(e.message.value, "Invalid") || Text.Contains(e.message.value, "expired")))
    ensures r.status != 401 ==> r.status == 500
  {
    if e.status == Some(401) || e.status == Some(403) then
      Response(401, ErrorBody("Invalid or Expired Token"))
    else if e.message.None? then
      Response(500, ErrorBody("Authentication Failed"))
    else if Text.Contains(e.message.value, "Invalid") || Text.Contains(e.message.value, "expired") then
      Response(401, ErrorBody("Invalid or Expired Token"))
    else
      Response(500, ErrorBody("Authentication Service Error"))
  }

  /**
    * The `authenticateUser` middleware. Without a header it answers 401 and
    * never consults the provider; otherwise it makes exactly one provider call,
    * and only a reply with no error and a user lets the request through.
    */
  function Authenticate(header: Option<string>, provider: ProviderResult): (r: Traced<Gate>)
    ensures HeaderMissing(header) ==>
      r == Traced(Halt(Response(401, ErrorBody("Missing Authorization Header"))), [])
    ensures !HeaderMissing(header) ==> r.calls == [ProviderCall(BearerToken(header.value))]
    ensures r.result.Proceed? <==>
      !HeaderMissing(header) && provider.Reply? && provider.error.None? && provider.user.Some?
    ensures r.result.Proceed? ==> r.result.user == provider.user.value
    ensures !HeaderMissing(header) && provider.Reply? && provider.error.Some? ==>
      r.result == Halt(ProviderErrorResponse(provider.error.value))
    ensures !HeaderMissing(header) && provider.Reply? && provider.error.None? && provider.user.None? ==>
      r.result == Halt(Response(401, ErrorBody("User not found")))
    ensures !HeaderMissing(header) && provider.Threw? ==>
      r.result == Halt(Response(500, ErrorBody("Authentication Failed")))
    ensures r.result.Halt? ==> r.result.response.status == 401 || r.result.response.status == 500
  {
    if HeaderMissing(header) then
      Traced(Halt(Response(401, ErrorBody("Missing Authorization Header"))), [])
    else
      var calls := [ProviderCall(BearerToken(header.value))];
      match provider
      case Threw =>
        Traced(Halt(Response(500, ErrorBody("Authentication Failed"))), calls)
      case Reply(error, user) =>
        if error.Some? then Traced(Halt(ProviderErrorResponse(error.value)), calls)
        else if user.None? then Traced(Halt(Response(401, ErrorBody("User not found"))), calls)
        else Traced(Proceed(user.value), calls)
  }

  /** `!webhookUrl` */
  predicate Unconfigured(url: Option<string>) {
    url.None? || url.value == ""
  }

  /**
    * `forwardToN8N`: an unconfigured URL answers 500 without any call;
    * otherwise exactly one call is made, a success relays the upstream body
    * unchanged with status 200, an upstream error response is relayed with its
    * own status and body, and no response at all gives 502.
    */
  function Forward(url: Option<string>, payload: Value, upstream: UpstreamResult): (r: Traced<Response>)
    ensures Unconfigured(url) ==>
      r == Traced(Response(500, ErrorBody("N8N Webhook URL not configured")), [])
    ensures !Unconfigured(url) ==> r.calls == [UpstreamCall(url.value, payload)]
    ensures !Unconfigured(url) && upstream.Delivered? ==> r.result == Response(200, upstream.data)
    ensures !Unconfigured(url) && upstream.Rejected? ==> r.result == Response(upstream.status, upstream.data)
    ensures !Unconfigured(url) && upstream.Unreachable? ==>
      r.result == Response(502, ErrorBody("Failed to communicate with automation engine"))
  {
    if Unconfigured(url) then
      Traced(Response(500, ErrorBody("N8N Webhook URL not configured")), [])
    else
      var calls := [UpstreamCall(url.value, payload)];
      match upstream
      case Delivered(data) => Traced(Response(200, data), calls)
      case Rejected(status, data) => Traced(Response(status, data), calls)
      case Unreachable => Traced(Response(502, ErrorBody("Failed to communicate with automation engine")), calls)
  }

  /** The authenticated routes. */
  datatype Route =
    | ListTransactions           // GET /api/transactions
    | AddTransaction             // POST /api/transactions
    | DeleteTransaction(id: string) // DELETE /api/transactions/:id
    | UpdateTransaction(id: string) // PUT /api/transactions/:id
    | GetStats                   // GET /api/stats
    | GetCategories              // GET /api/categories
    | GetCategoryStats           // GET /api/stats/categories

  /** An inbound request: route, Authorization header, `req.query` and `req.body`. */
  datatype Request = Request(
    route: Route,
    authorization: Option<string>,
    query: map<string, Value>,
    body: map<string, Value>)

  /** Two routes of the same operation, whatever transaction id they name. */
  predicate SameOperation(a: Route, b: Route) {
    (a.ListTransactions? && b.ListTransactions?) || (a.AddTransaction? && b.AddTransaction?)
    || (a.DeleteTransaction? && b.DeleteTransaction?) || (a.UpdateTransaction? && b.UpdateTransaction?)
    || (a.GetStats? && b.GetStats?) || (a.GetCategories? && b.GetCategories?)
    || (a.GetCategoryStats? && b.GetCategoryStats?)
  }

  /** The environment variable that holds each route's webhook URL, one per operation. */
  function WebhookVariable(route: Route): (name: string)
    ensures |name| > 12 && name[..12] == "N8N_WEBHOOK_"
  {
    match route
    case ListTransactions => "N8N_WEBHOOK_GET_TRANSACTIONS"
    case AddTransaction => "N8N_WEBHOOK_ADD_TRANSACTION"
    case DeleteTransaction(_) => "N8N_WEBHOOK_DELETE_TRANSACTION"
    case UpdateTransaction(_) => "N8N_WEBHOOK_UPDATE_TRANSACTION"
    case GetStats => "N8N_WEBHOOK_GET_STATS"
    case GetCategories => "N8N_WEBHOOK_GET_CATEGORIES"
    case GetCategoryStats => "N8N_WEBHOOK_GET_CATEGORY_STATS"
  }

  /** `process.env[name]` */
  function EnvLookup(env: map<string, string>, name: string): Option<string> {
    if name in env then Some(env[name]) else None
  }

  /** The stats action: the profile one exactly when `mode === 'profile'`, the dashboard one otherwise. */
  function StatsAction(mode: Value): (action: string)
    ensures action == "get_profile_stats" <==> mode == Str("profile")
    ensures action != "get_profile_stats" ==> action == "get_dashboard_stats"
  {
    if mode == Str("profile") then "get_profile_stats" else "get_dashboard_stats"
  }

  /** The action tag each route sends: the stats route's depends on `mode`, every other route has its own. */
  function ActionOf(req: Request): (action: string)
    ensures req.route.GetStats? <==> action == "get_profile_stats" || action == "get_dashboard_stats"
    ensures req.route.GetStats? ==> action == StatsAction(Param(req.query, "mode"))
  {
    match req.route
    case ListTransactions => "get_recent_transactions"
    case AddTransaction => "add_transaction"
    case DeleteTransaction(_) => "delete_transaction"
    case UpdateTransaction(_) => "update_transaction"
    case GetStats => StatsAction(Param(req.query, "mode"))
    case GetCategories => "get_categories"
    case GetCategoryStats => "get_category_stats"
  }

  /** `{ amount, date, category_name, note, type }` taken from the body as they are. */
  function TransactionFields(body: map<string, Value>): Value {
    Obj(map[
      "amount" := Param(body, "amount"),
      "date" := Param(body, "date"),
      "category_name" := Param(body, "category_name"),
      "note" := Param(body, "note"),
      "type" := Param(body, "type")])
  }

  /** `!amount || !date || !type` */
  predicate MissingRequiredField(body: map<string, Value>) {
    !Truthy(Param(body, "amount")) || !Truthy(Param(body, "date")) || !Truthy(Param(body, "type"))
  }

  /**
    * The payload a route handler forwards for `userId`, or the 400 answer of
    * POST when amount, date or type is falsy. Every payload names its action
    * and the user; DELETE and PUT add the path id; PUT is not validated.
    */
  function BuildPayload(req: Request, userId: string): (r: Result<Value, Response>)
    ensures r.Failure? <==> req.route == AddTransaction && MissingRequiredField(req.body)
    ensures r.Failure? ==> r.error == Response(400, ErrorBody("Missing required fields"))
    ensures r.Success? ==>
      (r.value.Obj? && Get(r.value, "action") == Str(ActionOf(req)) && Get(r.value, "userId") == Str(userId))
    ensures r.Success? && (req.route.DeleteTransaction? || req.route.UpdateTransaction?) ==>
      Get(r.value, "transactionId") == Str(req.route.id)
    ensures r.Success? && req.route == ListTransactions ==>
      Get(r.value, "startDate") == Param(req.query, "start") && Get(r.value, "endDate") == Param(req.query, "end")
    ensures r.Success? && req.route == GetStats ==> Get(r.value, "startDate") == Param(req.query, "startDate")
    ensures r.Success? && req.route == GetCategoryStats ==>
      Get(r.value, "startDate") == Param(req.query, "startDate") && Get(r.value, "endDate") == Param(req.query, "endDate")
    ensures r.Success? && (req.route.AddTransaction? || req.route.UpdateTransaction?) ==>
      Get(r.value, "payload") == TransactionFields(req.body)
  {
    var action := Str(ActionOf(req));
    var user := Str(userId);
    match req.route
    case ListTransactions =>
      Success(Obj(map["action" := action, "userId" := user,
        "startDate" := Param(req.query, "start"), "endDate" := Param(req.query, "end")]))
    case AddTransaction =>
      if MissingRequiredField(req.body) then Failure(Response(400, ErrorBody("Missing required fields")))
      else Success(Obj(map["action" := action, "userId" := user, "payload" := TransactionFields(req.body)]))
    case DeleteTransaction(id) =>
      Success(Obj(map["action" := action, "userId" := user, "transactionId" := Str(id)]))
    case UpdateTransaction(id) =>
      Success(Obj(map["action" := action, "userId" := user, "transactionId" := Str(id),
        "payload" := TransactionFields(req.body)]))
    case GetStats =>
      Success(Obj(map["action" := action, "userId" := user, "startDate" := Param(req.query, "startDate")]))
    case GetCategories =>
      Success(Obj(map["action" := action, "userId" := user]))
    case GetCategoryStats =>
      Success(Obj(map["action" := action, "userId" := user,
        "startDate" := Param(req.query, "startDate"), "endDate" := Param(req.query, "endDate")]))
  }

  /**
    * One request through `authenticateUser` and its route handler. At most one
    * provider call is made, then at most one upstream call; a failed
    * authentication or a rejected POST makes no upstream call; the one upstream
    * call goes to the route's configured URL and names the authenticated user.
    */
  function Handle(req: Request, env: map<string, string>, provider: ProviderResult, upstream: UpstreamResult): (r: Traced<Response>)
    ensures HeaderMissing(req.authorization) ==> r.result.status == 401 && r.calls == []
    ensures var gate := Authenticate(req.authorization, provider);
      gate.result.Halt? ==> r == Traced(gate.result.response, gate.calls)
    ensures var gate := Authenticate(req.authorization, provider);
      gate.result.Proceed? && req.route == AddTransaction && MissingRequiredField(req.body) ==>
        r == Traced(Response(400, ErrorBody("Missing required fields")), gate.calls)
    ensures |r.calls| <= 2
    ensures |r.calls| >= 1 ==>
      (!HeaderMissing(req.authorization) && r.calls[0] == ProviderCall(BearerToken(req.authorization.value)))
    ensures |r.calls| == 2 ==>
      var gate := Authenticate(req.authorization, provider);
      gate.result.Proceed? && r.calls[1].UpstreamCall?
      && Some(r.calls[1].url) == EnvLookup(env, WebhookVariable(req.route))
      && Get(r.calls[1].payload, "userId") == Str(gate.result.user.id)
      && Get(r.calls[1].payload, "action") == Str(ActionOf(req))
    ensures var gate := Authenticate(req.authorization, provider);
      gate.result.Proceed? && BuildPayload(req, gate.result.user.id).Success? ==>
        r.result == Forward(EnvLookup(env, WebhookVariable(req.route)), BuildPayload(req, gate.result.user.id).value, upstream).result
  {
    var gate := Authenticate(req.authorization, provider);
    match gate.result
    case Halt(response) => Traced(response, gate.calls)
    case Proceed(user) =>
      match BuildPayload(req, user.id)
      case Failure(response) => Traced(response, gate.calls)
      case Success(payload) =>
        var sent := Forward(EnvLookup(env, WebhookVariable(req.route)), payload, upstream);
        Traced(sent.result, gate.calls + sent.calls)
  }

  /** Different operations read different webhook variables, and one operation always the same one. */
  lemma EachOperationItsWebhook(a: Route, b: Route)
    ensures WebhookVariable(a) == WebhookVariable(b) <==> SameOperation(a, b)
  {
  }

  /** The action tag tells the upstream which operation a payload is for. */
  lemma ActionNamesTheOperation(a: Request, b: Request)
    ensures ActionOf(a) == ActionOf(b) ==> SameOperation(a.route, b.route)
    ensures SameOperation(a.route, b.route) && !a.route.GetStats? ==> ActionOf(a) == ActionOf(b)
  {
  }

  /**
    * An authenticated request whose payload builds gets the upstream's own
    * answer: its body with 200, or its status and body (a DELETE of an
    * unknown id answered 404 is answered 404), or 502 when it does not
    * answer; with the webhook not configured, 500 after the provider call alone.
    */
  lemma UpstreamAnswerRelayed(req: Request, env: map<string, string>, user: User, upstream: UpstreamResult)
    requires !HeaderMissing(req.authorization)
    requires BuildPayload(req, user.id).Success?
    ensures var r, url := Handle(req, env, Reply(None, Some(user)), upstream), EnvLookup(env, WebhookVariable(req.route));
      (Unconfigured(url) ==>
        r == Traced(Response(500, ErrorBody("N8N Webhook URL not configured")), [ProviderCall(BearerToken(req.authorization.value))]))
      && (!Unconfigured(url) && upstream.Delivered? ==> r.result == Response(200, upstream.data))
      && (!Unconfigured(url) && upstream.Rejected? ==> r.result == Response(upstream.status, upstream.data))
      && (!Unconfigured(url) && upstream.Unreachable? ==> r.result.status == 502)
  {
  }

  /**
    * An authenticated request whose payload builds, to a configured webhook,
    * makes exactly two calls: the provider's, then the webhook's with that payload.
    */
  lemma Delivers(req: Request, env: map<string, string>, user: User, upstream: UpstreamResult)
    requires !HeaderMissing(req.authorization)
    requires !Unconfigured(EnvLookup(env, WebhookVariable(req.route)))
    requires BuildPayload(req, user.id).Success?
    ensures Handle(req, env, Reply(None, Some(user)), upstream).calls
      == [ProviderCall(BearerToken(req.authorization.value)),
          UpstreamCall(EnvLookup(env, WebhookVariable(req.route)).value, BuildPayload(req, user.id).value)]
  {
  }

  /** The `mode` query parameter alone decides which stats action reaches the upstream. */
  lemma StatsModeSelectsAction(req: Request, env: map<string, string>, provider: ProviderResult, upstream: UpstreamResult)
    requires req.route == GetStats
    ensures var r := Handle(req, env, provider, upstream);
      |r.calls| == 2 ==>
        (Get(r.calls[1].payload, "action") == Str("get_profile_stats") <==> Param(req.query, "mode") == Str("profile"))
        && (Get(r.calls[1].payload, "action") == Str("get_dashboard_stats") <==> Param(req.query, "mode") != Str("profile"))
  {
  }

  /** DELETE and PUT forward the path's id as `transactionId`. */
  lemma TransactionIdForwarded(req: Request, env: map<string, string>, provider: ProviderResult, upstream: UpstreamResult)
    requires req.route.DeleteTransaction? || req.route.UpdateTransaction?
    ensures var r := Handle(req, env, provider, upstream);
      |r.calls| == 2 ==> Get(r.calls[1].payload, "transactionId") == Str(req.route.id)
  {
  }

  /**
    * Once authenticated, with the webhook configured, PUT always reaches the
    * upstream, whatever its body holds, and its answer is the upstream's.
    */
  lemma UpdateIsNotValidated(req: Request, env: map<string, string>, user: User, upstream: UpstreamResult)
    requires req.route.UpdateTransaction? && !HeaderMissing(req.authorization)
    requires !Unconfigured(EnvLookup(env, WebhookVariable(req.route)))
    ensures var r := Handle(req, env, Reply(None, Some(user)), upstream);
      |r.calls| == 2 && Get(r.calls[1].payload, "payload") == TransactionFields(req.body)
      && (upstream.Delivered? ==> r.result == Response(200, upstream.data))
      && (upstream.Rejected? ==> r.result == Response(upstream.status, upstream.data))
  {
  }

  /** A POST whose amount is 0 is refused with 400 and reaches no webhook. */
  lemma ZeroAmountIsRefused(req: Request, env: map<string, string>, user: User, upstream: UpstreamResult)
    requires req.route == AddTransaction && !HeaderMissing(req.authorization)
    requires Param(req.body, "amount") == Num(0)
    ensures Handle(req, env, Reply(None, Some(user)), upstream).result.status == 400
    ensures forall c :: c in Handle(req, env, Reply(None, Some(user)), upstream).calls ==> c.ProviderCall?
  {
  }
}
