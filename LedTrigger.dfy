/**
 * The HTTP-triggered handler of LEDTrigger/index.js: it checks the caller's
 * `apiKey` against the configured secret and answers either
 * `400 Not authorized` or the fixed animation parameters.
 *
 * The secret (the `MY_API_KEY` environment variable) is a parameter: `None`
 * when the variable is unset. The decision is the pure function `Respond`,
 * the log line it emits is `LogLineFor`, and `Handler` is the handler itself,
 * assigning `context.res` and calling `context.log` on a `Context` object.
 */
module LedTrigger {
  import opened Wrappers
  import opened JsValues
  import opened RvlAnimations

  /** Built once at module load from fixed literals; every accepted request gets it. */
  const LedPatternThatWillRender: WaveParameters :=
    CreateWaveParameters([CreateMovingWave(180, 255, 8, 1), CreateColorCycleWave(2, 255)])

  const InvalidKeyMessage: string := "Invalid API key"
  const AuthorizedMessage: string := "Successfully authorized, sending animation parameters"

  /** The body of `context.res`: a plain text or the object `{ waveParameters }`. */
  datatype ResponseBody =
    | Text(text: string)
    | Payload(waveParameters: WaveParameters)

  /** `context.res`; `status` is `None` when the handler leaves it to the host (200). */
  datatype Response = Response(status: Option<int>, body: ResponseBody)

  const NotAuthorized: Response := Response(Some(400), Text("Not authorized"))
  const Authorized: Response := Response(None, Payload(LedPatternThatWillRender))

  /** The incoming HTTP request: its `body` (`Undefined` when the request has
      none) and fields the host supplies that the handler never reads. */
  datatype Request = Request(
    body: JsValue,
    httpMethod: string,
    headers: map<string, string>,
    query: map<string, string>)

  /** `process.env.MY_API_KEY` as a JavaScript value: a string, or `undefined` when unset. */
  function SecretKey(secret: Option<string>): (v: JsValue)
    ensures v.Undefined? || v.Str?
    ensures v.Truthy() <==> secret.Some? && secret.value != ""
    ensures secret.Some? ==> v == Str(secret.value)
  {
    if secret.Some? then Str(secret.value) else Undefined
  }

  /** `req.body ? req.body.apiKey : undefined`: the truthiness test keeps the
      property read away from an absent or null body. */
  function IncomingKey(req: Request): (k: JsValue)
    ensures k != Undefined ==> req.body.Obj? && "apiKey" in req.body.props && req.body.props["apiKey"] == k
    ensures req.body.Obj? && "apiKey" in req.body.props ==> k == req.body.props["apiKey"]
    ensures !req.body.Truthy() ==> k == Undefined
  {
    if req.body.Truthy() then req.body.Get("apiKey") else Undefined
  }

  /** The guard `secretKey && incomingKey !== secretKey`, evaluated as JavaScript does:
      a request is refused exactly when the secret is set and non-empty and the key
      is not that very string. */
  function Rejects(secret: Option<string>, key: JsValue): (reject: bool)
    ensures reject <==> secret.Some? && secret.value != "" && key != Str(secret.value)
  {
    var secretKey := SecretKey(secret);
    LogicalAnd(secretKey, Bool(!StrictEquals(key, secretKey))).Truthy()
  }

  /** The response the handler assigns to `context.res`. */
  function Respond(secret: Option<string>, req: Request): (r: Response)
    ensures r == NotAuthorized || r == Authorized
    ensures r == NotAuthorized <==> secret.Some? && secret.value != "" && IncomingKey(req) != Str(secret.value)
    ensures secret.Some? && IncomingKey(req) == Str(secret.value) ==> r == Authorized
    ensures secret == None || secret == Some("") ==> r == Authorized
    ensures secret.Some? && secret.value != "" && !req.body.Truthy() ==> r == NotAuthorized
    ensures r.body.Payload? <==> r.status.None?
  {
    if Rejects(secret, IncomingKey(req)) then NotAuthorized else Authorized
  }

  /** The one line the handler passes to `context.log`. */
  function LogLineFor(secret: Option<string>, req: Request): (line: string)
    ensures line == InvalidKeyMessage <==> Respond(secret, req) == NotAuthorized
    ensures line == AuthorizedMessage <==> Respond(secret, req) == Authorized
  {
    if Rejects(secret, IncomingKey(req)) then InvalidKeyMessage else AuthorizedMessage
  }

  /** The outcome is a function of the secret and `req.body.apiKey` alone. */
  lemma DependsOnlyOnIncomingKey(secret: Option<string>, req1: Request, req2: Request)
    requires IncomingKey(req1) == IncomingKey(req2)
    ensures Respond(secret, req1) == Respond(secret, req2)
    ensures LogLineFor(secret, req1) == LogLineFor(secret, req2)
  {
  }

  /** Every accepted request, under any secret, receives the same parameters. */
  lemma PayloadIsConstant(secret1: Option<string>, req1: Request, secret2: Option<string>, req2: Request)
    requires Respond(secret1, req1).body.Payload?
    requires Respond(secret2, req2).body.Payload?
    ensures Respond(secret1, req1).body.waveParameters == LedPatternThatWillRender
    ensures Respond(secret1, req1).body == Respond(secret2, req2).body
  {
  }

  /** A non-empty secret is a real gate: some request passes it and some is refused. */
  lemma NonEmptySecretIsAGate(s: string)
    requires s != ""
    ensures exists req :: Respond(Some(s), req) == Authorized
    ensures exists req :: Respond(Some(s), req) == NotAuthorized
  {
    var carrying := Request(Obj(map["apiKey" := Str(s)]), "POST", map[], map[]);
    assert IncomingKey(carrying) == Str(s);
    assert Respond(Some(s), carrying) == Authorized;
    var bodiless := Request(Undefined, "POST", map[], map[]);
    assert Respond(Some(s), bodiless) == NotAuthorized;
  }

  /** Three exchanges with the secret "abc123": the matching key, a body without
      a key, and a wrong key. */
  lemma ExampleExchanges()
    ensures Respond(Some("abc123"), Request(Obj(map["apiKey" := Str("abc123")]), "POST", map[], map[]))
         == Response(None, Payload(WaveParameters([MovingWave([180, 255, 8, 1]), ColorCycleWave([2, 255])])))
    ensures LogLineFor(Some("abc123"), Request(Obj(map["apiKey" := Str("abc123")]), "POST", map[], map[])) == AuthorizedMessage
    ensures Respond(Some("abc123"), Request(Obj(map[]), "POST", map[], map[])) == Response(Some(400), Text("Not authorized"))
    ensures LogLineFor(Some("abc123"), Request(Obj(map[]), "POST", map[], map[])) == InvalidKeyMessage
    ensures Respond(Some("abc123"), Request(Obj(map["apiKey" := Str("wrong")]), "POST", map[], map[])) == NotAuthorized
    ensures LogLineFor(Some("abc123"), Request(Obj(map["apiKey" := Str("wrong")]), "POST", map[], map[])) == "Invalid API key"
  {
  }

  /** The invocation's context object: the response slot and the log lines written. */
  class Context {
    var res: Option<Response>
    var log: seq<string>

    constructor ()
      ensures res == None && log == []
    {
      res := None;
      log := [];
    }

    /** `context.log(line)`. */
    method Log(line: string)
      modifies this
      ensures log == old(log) + [line]
      ensures res == old(res)
    {
      log := log + [line];
    }
  }

  /** The exported handler: one log line, then one response, which depends only
      on the secret and the request (never on what the context held before). */
  method Handler(context: Context, secret: Option<string>, req: Request)
    modifies context
    ensures context.res == Some(Respond(secret, req))
    ensures context.log == old(context.log) + [LogLineFor(secret, req)]
  {
    var incomingKey := IncomingKey(req);
    if Rejects(secret, incomingKey) {
      context.Log(InvalidKeyMessage);
      context.res := Some(NotAuthorized);
      return;
    }
    context.Log(AuthorizedMessage);
    var body := Payload(LedPatternThatWillRender);
    context.res := Some(Response(None, body));
  }
}
