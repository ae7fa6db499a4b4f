# anthropic-bridge, modelled in Dafny

`src/anthropic-bridge.js` is a relay between two chat-completion wire formats.
Callers send Anthropic-style requests to `POST /v1/messages`. The relay rewrites
each one into an OpenAI-style request, sends it to a fixed upstream (OpenRouter),
and rewrites the answer back into an Anthropic-style message. This project models
the parts of that file that decide what is sent and what is answered:

- `values.dfy` (module `Values`): JSON fields as `Option` values, plus JavaScript
  truthiness and `x || fallback`. A missing key and JSON null are both `None`; every
  truthiness test treats them alike, but a field copied through unchanged does not
  (see "## Left out").
- `formats.dfy` (module `Formats`): the four message shapes as datatypes.
- `translator.dfy` (module `Translator`): the forward translation `anthropicToOpenAI`
  and the reverse translation `openAIToAnthropic`. The forward one is modelled twice.
  `ToOpenAI` is the declarative specification. `AnthropicToOpenAI` is the loop that
  pushes the system turn and then each caller turn, proved equal to it.
- `relay.dfy` (module `Relay`): the request handler `handleRequest` as a function of
  the method, the pathname, the result of parsing the body and the result of the
  upstream call. It also holds the caller-key extraction rule. `Exchange.forwarded`
  records the OpenAI request the relay sends upstream; `None` means the upstream is
  never contacted.
- `env_file.dfy` (module `EnvFile`): the `.env` fallback of `loadEnv`. This covers
  `split('\n')`, the line pattern `^([^=]+)=(.*)$` with its non-empty groups, and the
  loop that writes each assignment and counts API keys. The file's text is a
  parameter and the environment is a map value.

Behaviour of the source that the model keeps:

- Line 73 tests `system` for truthiness, so an empty `system` adds no turn.
- Line 93 keeps any truthy `stream`; only an absent, null or `false` stream becomes
  `false`.
- Line 112 copies the response `id` unchanged on the choice branch, so it may be
  absent; only the no-choice branch (line 102) substitutes `"unknown"`.
- Some JSON values make the POST path throw: a `null` body makes line 265 throw
  before the translation runs, and the forward translation throws on a truthy non-array `messages` (line 81) or a `null` turn (lines 83-84). A falsy
  `messages` is replaced by `[]` at line 69 and does not throw. The throw happens
  inside the `try` of line 263, so the caller gets 400 `invalid_request_error`
  (lines 285-293). A server-held key that the HTTP client refuses as a header value
  makes `https.request` (line 156) throw inside the same `try`, with the same answer.
  The model folds all these cases into `Relay.ParsedBody.Malformed`.
- A `null` upstream body makes line 168 throw inside the `try` of line 164, so the
  caller gets 500 `api_error` (lines 177-179, 271-279). The model folds this into
  `Relay.UpstreamResult.Unparseable`.
- The upstream's HTTP status is never read (the callback of line 156 ignores it).
  An upstream error answer such as a 401 or 429 with a JSON error body and no
  `choices` therefore reaches the caller as a 200 message with `stop_reason`
  "error" (`Relay.UpstreamErrorStatusReplies200`).

## Model

| member | source | states |
|---|---|---|
| `Translator.ToOpenAI` | src/anthropic-bridge.js:68-95 | `model` is copied. A system turn leads the list exactly when `system` is truthy. Every caller turn follows in order, unchanged, so the length is \|messages\| or \|messages\|+1, and an absent `messages` counts as empty. A falsy `max_tokens` becomes 4096 and a falsy `temperature` becomes 1; truthy ones pass through. `stream` is true only for `true`. The output never carries a falsy `max_tokens` or `temperature`. |
| `Translator.AnthropicToOpenAI` | src/anthropic-bridge.js:68-95 | The push loop (system turn, then each caller turn) builds exactly the request `ToOpenAI` specifies. |
| `Translator.ForwardKeepsCallerTurns` | src/anthropic-bridge.js:80-86 | Dropping the synthetic system turn from the output gives back the caller's turns exactly. |
| `Translator.ToAnthropic` | src/anthropic-bridge.js:98-126 | Total. `model` is always `originalModel`, whatever upstream sent; `type` is "message", `role` is "assistant", and there is exactly one text block. `usage` is present iff there is a first choice. With no first choice (choices absent, empty or led by null): `stop_reason` is "error", the text is "Error: No response from provider", and `id` is the response id if truthy, else "unknown". With a first choice: `id` is copied, `stop_reason` goes through the stop lookup, and the text is the choice's content, or "" when the message or content is absent. |
| `Translator.StopReasonRenamesOnlyStop` | src/anthropic-bridge.js:120 | The lookup changes a finish reason iff it is "stop". It yields "end_turn" iff the input is "stop" or already "end_turn". |
| `Translator.UsageCopiesCounts` | src/anthropic-bridge.js:121-124 | On the choice branch, each output token count equals the matching upstream count when that count is present (0 included). It is 0 when the count or `usage` is absent. The two counts are independent. |
| `Relay.RouteOf` | src/anthropic-bridge.js:203-252 | The handler's if-chain agrees with a four-entry table (GET /health, GET /status, GET /v1/models, POST /v1/messages). Every other method/path pair is NotFound. |
| `Relay.HandleRequest` | src/anthropic-bridge.js:203-294 | The status is always 200, 400, 404 or 500. It is 404 with `{error:'Not found'}` iff the pair is not in the table, and each GET route gets its own payload. The upstream is contacted iff the request is POST /v1/messages with a parsed body, and it then receives `ToOpenAI(body)`. The status is 400 `invalid_request_error` with the parse message iff that route's body is malformed. It is 500 `api_error` with the failure message iff the upstream was contacted and failed (connection or response parse). A delivered response gives 200 with `ToAnthropic(response, body.model)`. |
| `Relay.UpstreamErrorStatusReplies200` | src/anthropic-bridge.js:156-176 | A delivered upstream answer without a first choice (such as an error body with a 4xx status, which is never read) gives the caller 200 with the "no response" text, stop reason "error" and no usage. |
| `Relay.GetRoutesStayLocal` | src/anthropic-bridge.js:203-244 | GET /health, /status and /v1/models answer 200 and never contact the upstream, whatever the body or upstream would be. |
| `Relay.ModelEchoed` | src/anthropic-bridge.js:129-176 | Whenever a translated message is returned, its `model` equals the model the caller sent and the model forwarded upstream. |
| `Relay.StreamFlagDoesNotShapeReply` | src/anthropic-bridge.js:156-190 | Changing the caller's `stream` flag changes only the forwarded request, never the status or reply. |
| `Relay.SuccessfulExchange` | src/anthropic-bridge.js:262-284 | One user turn "hi" for model "m1", with upstream answering "hello"/"stop"/5/2, forwards `{m1, [user: hi], 4096, 1, false}`. It replies 200 with id "x", text "hello", model "m1", stop_reason "end_turn" and usage 5/2. |
| `Relay.StripBearerRemovesOnePrefix` | src/anthropic-bridge.js:255 | A leading "Bearer " in any letter case is removed once and the rest is kept verbatim. |
| `Relay.StripBearerKeepsOtherValues` | src/anthropic-bridge.js:255 | A value without that prefix is kept whole. |
| `Relay.CallerKeyRule` | src/anthropic-bridge.js:255 | A truthy `x-api-key` wins over any `authorization`. Otherwise an `authorization` without a Bearer prefix is taken whole, and with neither header there is no key. |
| `Relay.CallerKeyFromBearer` | src/anthropic-bridge.js:255 | Without a truthy `x-api-key`, a Bearer-prefixed `authorization` (any letter case) gives the rest of the value. |
| `EnvFile.SplitLines` | src/anthropic-bridge.js:51 | `split('\n')` yields at least one piece and no piece holds a newline. |
| `EnvFile.JoinSplitLines` | src/anthropic-bridge.js:51 | Joining the pieces with '\n' gives back the file text. |
| `EnvFile.SplitJoinLines` | src/anthropic-bridge.js:51 | Newline-free lines joined and split again come back unchanged. |
| `EnvFile.ParseEnvLine` | src/anthropic-bridge.js:52-53 | An accepted line is exactly `key=value`, with a non-empty key free of '=', a non-empty value, and no line terminator in the value. |
| `EnvFile.EnvPatternGroupsUnique` | src/anthropic-bridge.js:52 | The pattern's groups are determined by the line: the key is everything before the first '=' and the value is everything after it. |
| `EnvFile.ParseEnvLineComplete` | src/anthropic-bridge.js:52-53 | Every line the pattern matches with a non-empty value is accepted with those groups, so acceptance is an iff with the regex. |
| `EnvFile.CarriageReturnLineIgnored` | src/anthropic-bridge.js:52 | A line ending in '\r' is never accepted, because JavaScript's `.` does not match '\r'. A CRLF file therefore assigns nothing from any such line. |
| `EnvFile.LoadEnvText` | src/anthropic-bridge.js:49-59 | The loop over the split lines yields the environment `ApplyLines` describes, and a counter equal to the number of accepted lines whose key includes "API_KEY". |
| `EnvFile.LoadedKeys` | src/anthropic-bridge.js:51-54 | After loading, the environment's keys are the old keys plus exactly the keys the lines assign. |
| `EnvFile.UnassignedKeyKept` | src/anthropic-bridge.js:51-54 | A key no line assigns keeps its presence and value. |
| `EnvFile.LastAssignmentWins` | src/anthropic-bridge.js:51-54 | A key's final value is the value of the last line that assigns it. |
| `EnvFile.KeysLoadedAtMostLines` | src/anthropic-bridge.js:55-57 | The API-key counter never exceeds the number of lines. |

## Left out

- The HTTP server is not modelled: the listener, reading the inbound body in chunks (lines 257-262) and the outbound `https.request` with its callbacks (lines 156-190). These are network I/O. The body parse and the upstream outcome are the parameters `ParsedBody` and `UpstreamResult`.
- `JSON.parse`, `JSON.stringify`, `Buffer.byteLength` and `new URL` are library calls. The handler takes the already-extracted pathname. A `new URL` that throws on a malformed request target is not modelled.
- The outbound headers are not modelled (lines 138-154): the server-held bearer key, `Content-Length`, `http-referer` and `x-title`.
- Relay.HandleRequest: does not take the server-held key, so it does not show that a key the HTTP client refuses as a header value (a control character such as '\r', or a character above U+00FF; line 141) makes `https.request` (line 156) throw inside the `try` of line 263. Every POST /v1/messages then gets 400 `invalid_request_error` and the upstream is never contacted. The model counts that case under `ParsedBody.Malformed`.
- All logging (`log`, `fs.appendFileSync`, `console.log`) is not modelled, and neither is a log write that throws (line 33). No `uncaughtException` handler is installed, so a throw at lines 200, 229, 248, 178, 185 or 286 ends the whole process with every in-flight request and the listener; a throw at lines 131, 146 or 267-268 is caught at line 285 and gives 400 `invalid_request_error`; a throw at lines 169 or 175 is caught at line 177 and gives 500 `api_error`.
- `loadEnv` around the line loop is not modelled: the early return when `OPENROUTER_API_KEY` is set, and the file existence check and read (lines 38-48, 60-65). These are environment and file I/O. `process.env` is a map value.
- `start`, `server.listen` and the SIGTERM/SIGINT handlers are process lifecycle and are not modelled.
- The static bodies of /health, /status and /v1/models, and the clock read, are not modelled. Those routes' replies are constant tags.
- JSON fields of an unexpected type are not modelled. For example, a string `max_tokens` would pass through `||` unchanged. Each field has its documented type. `system` and message `content` are strings, although the Anthropic format also allows arrays of blocks, which the source copies unchanged.
- `Translator.ToOpenAI` and `Translator.ToAnthropic` do not distinguish JSON null from an absent key in the fields they copy unchanged: `model` (lines 89, 106, 119), `id` on the choice branch (line 112) and `finish_reason` (line 120). The source writes `null` for the first and omits the key for the second (for example `"stop_reason": null` against no `stop_reason`); the model gives `None` for both.
- A message's keys other than `role` and `content` are not modelled, and neither is an absent `role` or `content` inside a message. Such keys are dropped by the forward copy, and absent values would be dropped when serialised.
- `temperature` is a mathematical real with no floating-point behaviour. The source only tests it for falsiness and passes it on. JSON cannot produce NaN, its other falsy value.
- Concurrency between requests is not modelled. Nor is a callback that runs twice (an `error` event after `end`), or an exception escaping the handler.
