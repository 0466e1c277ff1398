# LED trigger: authorization gate

A model of the HTTP-triggered Azure Function in `LEDTrigger/index.js`. The
handler reads a shared secret from the `MY_API_KEY` environment variable and
the caller's key from `req.body.apiKey`. If the secret is set and non-empty
and the key is not strictly equal to it, the handler logs `Invalid API key`
and responds with status 400 and body `Not authorized`. Otherwise it logs
`Successfully authorized, sending animation parameters` and responds with
`{ waveParameters: ledPatternThatWillRender }`. That pattern is built once,
at module load, from a moving wave `(180, 255, 8, 1)` and a colour-cycle wave
`(2, 255)`.

Files:

- `JsValues.dfy`: the JavaScript semantics the handler relies on. It covers
  JSON-shaped values, truthiness, `&&`, and `===` when one side is a string or
  `undefined`. It also defines the property read `v.name` (`JsValue.Get`), which
  is only defined when `v` is neither `undefined` nor `null`, and yields an
  object's own property or `undefined`.
- `RvlAnimations.dfy`: the animation library (rvl-node-animations). Each call's
  result is a term that records the call and its literal arguments.
- `LedTrigger.dfy`: the decision as pure functions (`Respond`, `LogLineFor`).
  The handler is a method (`Handler`) that assigns `res` on a `Context` object
  and appends one line to its log.
- `Wrappers.dfy`: `Option`.

The policy modelled is the one the code implements. An unset or empty secret
accepts every request, including one with no body or no `apiKey`. A
non-empty secret accepts only a key that is that exact string. A number or
any other non-string key never matches.

## Model

| member | source | states |
|---|---|---|
| `JsValues.JsValue.Truthy` | LEDTrigger/index.js:27-30 | A value is truthy exactly when it is not one of the falsy values `undefined`, `null`, `false`, `0` and `""`. So an empty secret and an absent or null body count as false. |
| `JsValues.StrictEquals` | LEDTrigger/index.js:30 | `===` against a string or `undefined` holds exactly when the two values are equal. So a numeric key never equals a string secret. |
| `JsValues.LogicalAnd` | LEDTrigger/index.js:30 | `a && b` yields one of its operands. It is truthy exactly when both operands are. |
| `LedTrigger.SecretKey` | LEDTrigger/index.js:26 | The secret seen by the handler is a string or `undefined`. It is truthy exactly when it is set and non-empty. |
| `LedTrigger.IncomingKey` | LEDTrigger/index.js:27 | A missing or falsy body gives an absent key. A defined key is always the `apiKey` property of an object body, and such a property is always picked up. |
| `LedTrigger.Rejects` | LEDTrigger/index.js:30 | The guard `secretKey && incomingKey !== secretKey` holds exactly when the secret is set, is non-empty, and differs from the key. |
| `LedTrigger.Respond` | LEDTrigger/index.js:30-45 | The response is either 400 `Not authorized` or the default status with `{ waveParameters: ledPatternThatWillRender }`. It is the rejection exactly when the secret is set and non-empty and the key differs from it. A matching key is accepted. An unset or empty secret accepts every request. A non-empty secret refuses every request without a body. A payload is present exactly when no status is set. |
| `LedTrigger.LogLineFor` | LEDTrigger/index.js:31-39 | The log line is `Invalid API key` exactly on rejection. It is the success message exactly on acceptance. |
| `LedTrigger.DependsOnlyOnIncomingKey` | LEDTrigger/index.js:26-27 | Two requests with the same `body.apiKey` get the same response and the same log line, whatever their other fields. |
| `LedTrigger.PayloadIsConstant` | LEDTrigger/index.js:17-23 | Every accepted response carries the same module-level parameters, whatever the secret and the request. |
| `LedTrigger.NonEmptySecretIsAGate` | LEDTrigger/index.js:30-36 | With a non-empty secret, some request is accepted (one carrying the secret) and some request is refused (one with no body). |
| `LedTrigger.ExampleExchanges` | LEDTrigger/index.js:17-45 | With secret `abc123`: the matching key gets the two waves with their literal arguments and logs the success message; a body without `apiKey` and a wrong key both get 400 `Not authorized` and log `Invalid API key`. |
| `LedTrigger.Context.Log` | LEDTrigger/index.js:31 | `context.log` appends exactly the given line and leaves `res` alone. |
| `LedTrigger.Handler` | LEDTrigger/index.js:25-47 | After one invocation, `context.res` is `Respond(secret, req)` and the log has grown by exactly one line, `LogLineFor(secret, req)`. Neither depends on what the context held before. |

## Left out

- Reading `process.env.MY_API_KEY` is environment I/O. The secret is a parameter instead (`None` when unset).
- `context.done()`, which is called only on the success path, is left out. So are the `async` wrapper, the parsing of the HTTP body into `req.body`, and the sending of the response. These are the Azure Functions host protocol.
- The internals of rvl-node-animations (`createWaveParameters`, `createMovingWave`, `createColorCycleWave`) are not part of this model. Each result is represented by the call that produced it, which is sound because those functions are pure and deterministic.
- Logging infrastructure: only the text of each logged line is recorded.
- `JsValues.JsValue.Get`: does not model properties inherited from built-in prototypes (such as `length` or `toString`). The handler reads only `apiKey`, which no built-in prototype defines.
- `JsValues.StrictEquals`: is defined only when the right-hand side is a string or `undefined`. That is the only case the handler evaluates, so object identity and `NaN` (which JSON cannot produce) are not modelled.
- JavaScript strings are sequences of UTF-16 code units and JSON numbers are doubles. So a parsed body can hold a lone surrogate (`"\ud800"`) or `Infinity` (`1e400`), and neither is representable here. The decision is unaffected: such a key is never equal to a well-formed secret string, so it is refused whenever the secret is non-empty, just like any other non-matching key.
- An "exact-match" policy, in which an unset secret would refuse requests, is not what this code does and is not modelled.
