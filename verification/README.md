# Herald MCP front end — a verified model

Herald is a secrets service. This project models its MCP front end. The front end registers seven tools (`herald_health`, `herald_inventory`, `herald_audit`, `herald_rotate_cache`, `herald_sync`, `herald_rotate`, `herald_provision_secret`). It serves them over stdio or over an SSE binding that keeps one session per client. Each tool sends requests to the Herald backend through a small HTTP client.

The model has three parts:

- **The session table and request router** (`HeraldServer`, src/index.ts:128-164). Start-up picks a transport from `MCP_TRANSPORT`. Under SSE, a class `SseServer` holds the `transports` map from session id to transport. `Open` stores a transport when `GET /sse` opens a channel. `Close` removes it when that response closes. `Route` handles one HTTP request:
  - it opens a session on `GET /sse`;
  - it forwards `POST /message?sessionId=…` when the id is in the table;
  - it answers 400 `Unknown session` when the id is not in the table;
  - it answers 404 `Not Found` for any other method or path;
  - it answers 400 when the request has no URL.

  The pure function `Step` states the same router. The lemmas about `Step` cover any interleaving of opens, closes and posts.
- **The tool text builders** (`HeraldTools`, src/index.ts:13-122). These are pure functions from decoded backend replies to the returned text:
  - the provider lines and provisioner label of `herald_health`;
  - the update hint of `herald_rotate`, which names the first `connect_server` provider whose status is `ok`;
  - the `op://` reference lines and provisioner note of `herald_provision_secret`;
  - the `Promise.all` that joins two backend calls.
- **The backend client** (`HeraldClient`, src/client.ts). Each operation is modelled as the request it builds: method, URL, headers and body. This includes:
  - the `Authorization` header, sent only when the token is non-empty;
  - the audit query string, built with `URLSearchParams.set` and serialized per section 5.2 of the WHATWG URL Standard (`FormUrlEncoded`);
  - the path arguments, interpolated unescaped into the string handed to `fetch`;
  - the ok / not-ok decision on the response status, with its exact error message.

`Text` holds `join` / `split` on one character and the decimal rendering of integers. Each comes with the inverse that proves it loses nothing. `Wrappers` holds `Option` (an unset field or variable) and `Outcome` (a fulfilled or rejected promise).

Notes on the code:

- **Transport selection falls back silently.** `SelectTransport` selects stdio for any value of `MCP_TRANSPORT` other than `sse`; an unrecognised value does not stop start-up.
- **Session ids are not proved unique.** The SDK mints them, so the model takes them as inputs. `Open` overwrites an equal id. `Close` removes whatever is stored under the id it is given.
- **Provisioning has no request format.** src/client.ts has no `provision` operation. `herald_provision_secret` is therefore modelled from its reply record `{item_id, refs}` only. `ProvisionTool` describes the handler against a client that has this method. As written, `client.provision` is undefined: building the `Promise.all` array throws a `TypeError` after `client.health()` has already been issued. The handler therefore always fails, and a failing health call is left unhandled.

## Model

| member | source | states |
|---|---|---|
| HeraldServer.SelectTransport | src/index.ts:128-132 | SSE is chosen iff `MCP_TRANSPORT` is exactly `sse`; unset or any other value gives stdio; host defaults to `0.0.0.0` and port to the text `8000`, a set value is kept as given |
| HeraldServer.Answer | src/index.ts:137-155 | the router itself writes 400 with an empty body (no URL), 400 `Unknown session`, 404 `Not Found`; opened and forwarded requests are answered by the SDK |
| HeraldServer.Step | src/index.ts:136-156 | no URL answers 400 before any routing; only `GET /sse` changes the table, storing the new transport under its session id (an equal id is overwritten, other entries unchanged); `POST /message` is forwarded iff its `sessionId` (missing = empty string) is in the table, and then to exactly that entry; otherwise it is rejected as unknown; every other method/path is 404 with the table unchanged |
| HeraldServer.Closed | src/index.ts:143 | a closed response removes exactly its session id; every other id keeps its transport |
| HeraldServer.StepKeepsWellKeyed | src/index.ts:140-152 | requests and closes keep every transport stored under its own session id, so a forwarded message reaches the transport whose id it names and no other |
| HeraldServer.ReplayIsLatest | src/index.ts:140-143 | after any sequence of requests and closes, an id is in the table iff the latest event about it was a `GET /sse` that opened it, and it maps to that event's transport |
| HeraldServer.PostAfterEvents | src/index.ts:145-152 | for any interleaving of sessions, a post for an id goes to the transport of the latest open of that id, or is rejected as unknown if that session's response has closed since |
| HeraldServer.PostAfterCloseIsRejected | src/index.ts:140-151 | posting to a session just opened is forwarded to its transport; posting after its response closed is rejected as unknown |
| HeraldServer.SseServer.constructor | src/index.ts:134 | the table starts empty |
| HeraldServer.SseServer.Open | src/index.ts:142 | the table gains the transport under its own session id, overwriting an equal id; nothing else changes |
| HeraldServer.SseServer.Close | src/index.ts:143 | the table loses exactly the closed session id |
| HeraldServer.SseServer.Route | src/index.ts:136-156 | the outcome and the new table are those of `Step`; a forwarded message reaches the transport whose session id it names |
| HeraldTools.CallsAreRegistered | src/index.ts:13-123 | every tool call names one of the seven registered tools |
| HeraldTools.TypeLabel | src/index.ts:16-18 | fixed labels for `connect_server` and `service_account`; any other type, even empty, shown as it is; a missing type is `unknown` |
| HeraldTools.WhenTruthy | src/index.ts:19-20 | the `: error` suffix and the rate-limit note are each present iff their field is a non-empty string, and then end with that field |
| HeraldTools.ProviderLines | src/index.ts:15-21 | one line per provider, in provider order |
| HeraldTools.ProvisionerLabel | src/index.ts:22-24 | `connect` and `sdk` get their fixed labels, anything else including a missing field is `unavailable` (each iff) |
| HeraldTools.HealthTool | src/index.ts:13-34 | a successful health call returns one text block, the summary followed by the JSON; a failed call fails the tool with the client's error |
| HeraldTools.HealthLinesOrder | src/index.ts:25-32 | five heading lines, then provider k's line at position 5 + k |
| HeraldTools.HealthTextLayout | src/index.ts:25-33 | the text is the summary, a blank line, then the pretty JSON unchanged; cutting the summary at line breaks gives the summary lines back when none holds a line break |
| HeraldTools.PassThroughTool | src/index.ts:36-47 | inventory and audit (and sync) return the pretty JSON of the reply unchanged, or fail with the client's error |
| HeraldTools.RotateCacheTool | src/index.ts:49-55 | on success the text is `Cache cleared for stack: <stack>`; a failed purge fails the tool |
| HeraldTools.All | src/index.ts:68-71 | `Promise.all` fulfils iff both calls do, with both values; otherwise it rejects with the error of a failed call (the only failed one, or the first to fail) |
| HeraldTools.ConnectProvider | src/index.ts:72 | finds the first provider of type `connect_server` with status `ok`, and finds none iff there is none |
| HeraldTools.FirstReadyUnique | src/index.ts:72 | there is at most one first such provider |
| HeraldTools.UpdateHint | src/index.ts:72-75 | the hint names the first ready Connect server provider when one exists, otherwise it is the generic hint |
| HeraldTools.RotateTool | src/index.ts:65-83 | succeeds iff both the health and rotate calls succeed; the text is the trigger line, the hint, a blank line and the rotate reply's JSON; a failure carries the error of the call that failed, or of the first to fail when both do |
| HeraldTools.ProvisionerNote | src/index.ts:106-111 | the provisioner defaults to `unknown`; `connect`, `sdk` and any other value give the connect note, the SDK note and `Provisioner: <value>` |
| HeraldTools.RefLines | src/index.ts:117 | one `  field=ref` line per reference, in entry order |
| HeraldTools.ProvisionLinesLayout | src/index.ts:112-120 | four heading lines with the item id, the reference lines in entry order, a blank line, then the provisioner note |
| HeraldTools.ProvisionTool | src/index.ts:101-122 | succeeds iff both the health and provision calls succeed, with the provisioner note taken from the health reply; a failure carries the error of the call that failed, or of the first to fail when both do |
| HeraldTools.SyncCallAsWrittenMisplacesContent | src/index.ts:60 | as written, the sync body's `out_path` is the env file contents, and the caller's `out_path` never reaches the backend |
| HeraldTools.SyncCallAligned | src/client.ts:61-66 | the corrected call sends the caller's `out_path` as the output path, by POST to `/v1/materialize/env` |
| HeraldTools.Requests | src/index.ts:13-105 | each tool sends the request of its client operation: health, inventory, audit with its filter, cache purge of its stack, rotate after health; every request goes to the client's base URL with the client's headers; only `herald_rotate` sends two; `herald_sync` sends one POST to `/v1/materialize/env` whose body carries `env_content` as `out_path`, as the call is written; `herald_provision_secret` is shown sending only its health request |
| HeraldTools.AuditToolEndToEnd | src/index.ts:41-45 | a `herald_audit` call for a plain stack over non-zero hours sends one GET to the base URL followed by `/v1/audit?stack=<stack>&hours=<hours>`, with the client's headers and no body |
| HeraldClient.NewClient | src/client.ts:32-35 | base URL defaults to `http://herald:8765` and the token to empty, only when the variable is unset |
| HeraldClient.Headers | src/client.ts:38-41 | `Content-Type: application/json` always comes first; `Authorization` is present iff the token is non-empty, and its value is always `Bearer <token>`; there are no other headers |
| HeraldClient.FetchUrl | src/client.ts:42 | the URL is the base URL immediately followed by the path, with no separator; both parts can be read back; no method means GET |
| HeraldClient.Check | src/client.ts:43-46 | a status in 200-299 hands the body on; any other yields the error `Herald API error: <status> <body>` |
| HeraldClient.ErrorMessageRoundTrip | src/client.ts:44 | the status and body can be recovered from the error message |
| HeraldClient.ReadRequests | src/client.ts:49-50 | `health` and `inventory` are GETs with no body to `/v1/health` and `/v1/inventory` |
| HeraldClient.AuditParamsSpec | src/client.ts:51-55 | `stack`, `secret`, `hours` are each present iff truthy (empty string and 0 omitted), carry the given text, and come in that order with no name twice |
| HeraldClient.Audit | src/client.ts:51-57 | building the query by successive `set` calls on an empty list gives the audit request |
| HeraldClient.AuditPathShape | src/client.ts:56 | the audit path starts with `/v1/audit?` and equals it exactly when no parameter is truthy |
| HeraldClient.AuditQueryParses | src/client.ts:52-56 | the query after `?` splits back into the encoded parameters, in order |
| HeraldClient.AuditStackAndHours | src/client.ts:51-56 | a plain stack name with non-zero hours gives exactly `/v1/audit?stack=<stack>&hours=<hours>`, with no `secret` (e.g. `stack=prod&hours=24`) |
| HeraldClient.DecimalIsPlain | src/client.ts:55 | `String(hours)` contains only characters the query writes unchanged |
| HeraldClient.RotateCachePath | src/client.ts:58-60 | a DELETE to `/v1/cache/` followed by the unescaped stack, which can be read back from the URL |
| HeraldClient.StackNotEscaped | src/client.ts:59 | a stack holding `/` or `..` reaches the string handed to `fetch` as it is |
| HeraldClient.SyncRequestShape | src/client.ts:61-66 | sync is a POST to `/v1/materialize/env` with a body of `stack` and `out_path` only |
| HeraldClient.RotatePath | src/client.ts:67-69 | a POST to `/v1/rotate/` followed by the unescaped item id, which can be read back from the URL |
| FormUrlEncoded.SetParam | src/client.ts:53-55 | `URLSearchParams.set` leaves exactly one pair with that name and value, keeps the other pairs in order, appends when the name is new, and otherwise puts the value in place of the first pair with that name |
| FormUrlEncoded.Encode | src/client.ts:56 | encoded names and values never contain `&` or `=`; a string of unreserved characters is written as it is |
| FormUrlEncoded.Utf8RoundTrip | src/client.ts:56 | the UTF-8 bytes used in percent-encoding have a lead byte that announces the length and continuation bytes `10xxxxxx`, and decode to the character |
| FormUrlEncoded.SerializeEmpty | src/client.ts:56 | the serialized query is empty iff the parameter list is |
| FormUrlEncoded.ParseSerialize | src/client.ts:56 | splitting the serialized query at `&` and `=` gives back every encoded pair, in order |
| Text.IntRoundTrip | src/client.ts:55 | the decimal text of `hours` parses back to the number |

## Left out

- The HTTP server itself, `fetch`, SSE streaming and `handlePostMessage` are I/O. The model takes the incoming request and the client's response as inputs, and returns the request sent or the outcome tag.
- Parsing `req.url` with `new URL` is left out. The router receives the pathname and the `sessionId` query value. A request target that `new URL` rejects is not modelled.
- The SDK creates the SSE transport and mints its session id. `Route` receives this transport (`minted`) and uses it only for `GET /sse`. Nothing proves that ids are unique.
- `McpServer` tool dispatch and zod validation are library code. The model keeps only the declared names and parameters (`Catalogue`, `ToolCall`). A validation failure and an unknown tool name are not modelled. A handler's error is modelled as `Failure(message)`; how the SDK then reports it is not.
- `JSON.stringify(data, null, 2)` is not modelled. Each decoded reply carries its pretty text (`Reply.pretty`). Opaque replies (inventory, audit, sync, rotate) are represented only by that text.
- `JSON.stringify` of the sync body is not modelled either. The body is the record `MaterializeBody(stack, outPath)`, where an absent `out_path` is `None`, which JSON omits.
- `resp.json()` decoding is not modelled. An ok response hands on its body text (`Decoded`).
- A `fetch` that rejects because of a network failure is not modelled. Only HTTP statuses are.
- `hours` and `uptime_seconds` are unbounded integers written in plain decimal digits (`IntToDecimal`). A fractional or NaN JavaScript number, a number beyond 2^53 (no longer an exact integer), and the exponent form `String()` gives from magnitude 10^21 (`1e+21`) are not modelled. `parseInt` of the port is not modelled; the port stays text.
- Strings are sequences of Unicode scalar values. A lone UTF-16 surrogate, which the form encoder would replace with U+FFFD, cannot occur.
- `Object.entries` order for `refs` is given as the input order. JavaScript puts integer-like keys first.
- `SyncCallAligned` is one reading of the intended sync call: it follows the client's `(stack, outPath)` signature, so `env_content`, which the tool's description makes its main input, still does not reach the backend.
- `Request.url` is the string handed to `fetch`, before the URL parser reads it. Dot-segment resolution (`a/../b` reaching the backend as `b`), and a `?` or `#` in a stack or item id starting the query or fragment, are not modelled.
- The provisioning request is not modelled, because the client has no `provision` operation. `Requests` shows `herald_provision_secret` sending only its health request.
- The start-up banner written to stderr, `listen` and `connect` are I/O and are not modelled.

## Findings

| source | as written | input that shows it | evidently intended | confidence | as-written member | corrected member |
|---|---|---|---|---|---|---|
| src/index.ts:60 | `client.sync(stack, env_content, out_path, bypass_cache)` is called with four arguments, but `sync(stack, outPath)` takes two, so `env_content` becomes the output path and `out_path` and `bypass_cache` are dropped | `herald_sync` with `env_content = "K=op://v/i/f"` and `out_path = "/srv/.env"` sends the body `{stack, out_path: "K=op://v/i/f"}` | the caller's `out_path` reaches the backend as `out_path` | not executed; high that the call is wrong, medium on the intended fix | HeraldTools.SyncCallAsWrittenMisplacesContent | HeraldTools.SyncCallAligned |
