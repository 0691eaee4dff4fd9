# Kitz Tool Gateway v0.1: tool registry and dispatch, in Dafny

This project models the core of the Kitz Tool Gateway. The gateway is a small
HTTP service that exposes named, stateless tools. Callers list the tools with
`GET /v0.1/tools` and call one with `POST /v0.1/tools/<name>/invoke`.

- `json.dfy` (module `Json`): the decoded JSON values the gateway handles
  (`null`, booleans, integers, strings, arrays, objects), plus Python
  truthiness. Python's `None` is `JNull`.
- `pytext.dfy` (module `PyText`): the Python string behaviour the handlers
  rely on. This covers `startswith`/`endswith`, slicing with a negative stop,
  `in` on strings, and `repr`. `str(KeyError(msg))` is the `repr` of `msg`.
- `tools.dfy` (module `Tools`): `Tool`, the `ToolRegistry`, the built-in
  tools `echo`, `utc_now` and `sum`, and `default_registry`. The registry's
  dict is a `seq` of tools in key-insertion order. `Build` reproduces the dict
  comprehension: each tool is put under its name in list order. A repeated
  name keeps the position where it first appeared and takes the last tool
  with that name. `Invoke` fails with `NotFound("unknown tool: <name>")` for
  an unknown name. Otherwise it returns whatever the stored tool gives.
  A tool's outcome is a `Result`:
  - `Ok` is a result dict.
  - `NotFound` is a `KeyError`.
  - `Invalid` is a `ValueError`.
  - `Crashed` is any other exception.
- `server.dfy` (module `Server`): the decisions `do_GET` and `do_POST` make,
  as one pure function, `Route(registry, method, path, body, now)`. It
  returns `Reply(status, payload)`, or `NoReply` when the handler writes
  nothing. The body is the decoded JSON value, or `Malformed` when
  `json.loads` rejects it. `Route` answers a JSON `null` body like any other
  body that is not a dict; `HandlePostAsWritten` is `do_POST` exactly as
  written, which does not answer it (see "## Findings"). The lemmas about
  POST state both where they differ.
- `scenarios.dfy` (module `Scenarios`): concrete requests against the
  built-in registry, including those of `tests/test_gateway.py`.

The `utc_now` tool reads the wall clock. In the model the clock reading is a
parameter, `now`, which is passed down through `Route`, `Invoke` and
`InvokeTool`.

A tool function receives exactly what `Tool.invoke` passes it, which is
`args or {}`. So any falsy value becomes the empty dict: `None`, `{}`, `[]`,
`""`, `0` or `False`. A value that is truthy but not a dict reaches the tool
as it is. `echo` and `sum` then raise `AttributeError` on `.get`. No handler
catches that, so the request gets no reply. `utc_now` ignores its argument
and answers normally.

Two details follow the code exactly:
- A 404 for an unknown tool carries `str(KeyError(...))`. That is the quoted
  `repr` of `unknown tool: <name>`, not the bare message.
- `echo` returns `message` whatever its JSON type. It is not checked to be a
  string.

## Model

| member | source | states |
|---|---|---|
| `Tools.InvokeToolArgs` | kitz_gateway/tools.py:21-22 | A falsy argument value (`None`, empty dict, and so on) reaches the tool function as the empty dict. Every falsy value gives the same result as `None`. A truthy value is passed on unchanged. |
| `Tools.AllNumbers` | kitz_gateway/tools.py:53 | The element check holds exactly when every element of the list is an `int` or a `bool`. |
| `Tools.SumResult` | kitz_gateway/tools.py:51-55 | `sum` fails with `Invalid("'numbers' must be a list of int/float values")` exactly when `numbers` is present and is either not a list or holds a non-number. It never fails in any other way on a dict. With `numbers` absent it gives `{sum: 0, count: 0}`. Otherwise it gives the total and the length of the list. On a non-dict it raises. |
| `Tools.TotalAppend` | kitz_gateway/tools.py:55 | The total of two lists joined is the sum of their totals. `TotalFrontToBack` rests on it. |
| `Tools.TotalFrontToBack` | kitz_gateway/tools.py:55 | Adding up from the front gives the same total as Python's left-to-right `sum`. `TotalOneTwoThree` computes the total of `[1, 2, 3]` this way. |
| `Tools.Put` | kitz_gateway/tools.py:29 | Storing a tool under its name keeps names distinct. An existing name keeps its position and takes the new tool. A new name is appended. Nothing else changes. |
| `Tools.Build` | kitz_gateway/tools.py:28-29 | The constructed registry never holds two tools with the same name. |
| `Tools.BuildSpec` | kitz_gateway/tools.py:28-29 | After construction, the names are distinct and are exactly the names in the list. Each name's tool is the LAST tool in the list with that name. The names stand in the order of their FIRST occurrence. |
| `Tools.DictSpec` | kitz_gateway/tools.py:29 | The dict's keys are exactly the names in the list. Every key equals the `name` of the tool stored under it. The stored tool is the last one with that name. |
| `Tools.ListToolsSpec` | kitz_gateway/tools.py:31-35 | `list_tools` gives one entry per distinct registered name, with pairwise distinct names, in first-occurrence order. Each entry has the description of the tool kept for its name. |
| `Tools.InvokeSpec` | kitz_gateway/tools.py:37-40 | An unregistered name fails with `NotFound("unknown tool: <name>")`. A registered name gives exactly what the kept tool's `invoke` gives, errors included. |
| `Tools.DefaultTools` | kitz_gateway/tools.py:58-67 | The built-in registry holds `echo`, `utc_now` and `sum` in that order, each under its own name. |
| `Tools.DefaultListing` | kitz_gateway/tools.py:58-67 | The built-in registry lists `echo`, `utc_now` and `sum`, in that order, with their descriptions. |
| `Tools.EchoSpec` | kitz_gateway/tools.py:43-44 | `echo` returns `{echo: message}` for any JSON value of `message`. It returns `{echo: ""}` when `message` is absent or the arguments are falsy. |
| `Tools.UtcNowSpec` | kitz_gateway/tools.py:47-48 | `utc_now` returns `{utc_iso: now}` for any argument value. |
| `Tools.SumSpec` | kitz_gateway/tools.py:51-55 | Through the registry, `sum` with falsy arguments gives `{sum: 0, count: 0}`. With any other arguments it is `SumResult`. |
| `Tools.DefaultUnknownSpec` | kitz_gateway/tools.py:37-39 | The built-in registry rejects every name other than its three with `unknown tool: <name>`. |
| `Tools.EchoExamples` | kitz_gateway/tools.py:43-44 | `echo` with `{}` gives `{echo: ""}`, and with `{message: "hi"}` gives `{echo: "hi"}`. |
| `Tools.SumOneTwoThree` | tests/test_gateway.py:44-48 | `sum` of `[1, 2, 3]` gives `{sum: 6, count: 3}`. |
| `Tools.SumOfNothing` | kitz_gateway/tools.py:52 | `sum` with no `numbers` gives `{sum: 0, count: 0}`. |
| `Tools.SumRejections` | kitz_gateway/tools.py:53-54 | `sum` with `numbers` set to `"not-a-list"`, or to `[1, "x"]`, fails with `Invalid`. |
| `PyText.SliceIndex` | kitz_gateway/server.py:47 | A slice index in `0..n` is kept. A negative index in `-n..-1` counts from the end. An index above `n` is clamped to `n`, and one below `-n` is clamped to 0. |
| `PyText.Slice` | kitz_gateway/server.py:47 | `s[start:stop]` is never longer than `s`. For `0 <= start <= stop <= len(s)` it is `s[start..stop]`. For a start from the front and a negative stop, as in `path[len(prefix):-len(suffix)]`, it drops `start` characters at the front and `-stop` at the back, and is empty when those overlap or run past the end. |
| `PyText.Repr` | kitz_gateway/server.py:55-56 | `str(KeyError(msg))` begins and ends with the quote `repr` chooses, and is at least two characters longer than `msg`. |
| `PyText.ReprOfPlainText` | kitz_gateway/server.py:55-56 | Text with no backslash, no unprintable character and not both kinds of quote comes out of `repr` only quoted, so it is contained in the result. |
| `Server.GetSpec` | kitz_gateway/server.py:27-37 | GET on `/v0.1/health` is 200 with `{status: "ok", version: "0.1"}`. GET on `/v0.1/tools` is the listing. Every other path is 404 `not found`. Status 200 occurs exactly on those two paths. |
| `Server.ListingSpec` | kitz_gateway/server.py:33-35 | The listing is 200 with `{tools: [...]}`, holding one `{name, description}` object per `list_tools` entry, in order. |
| `Server.ToolNameRoundTrip` | kitz_gateway/server.py:47 | Every name put between `/v0.1/tools/` and `/invoke` makes an invocation path, and the slice gives the name back. |
| `Server.ToolNameSplits` | kitz_gateway/server.py:47 | An invocation path whose prefix and suffix do not overlap is the prefix, followed by the extracted name, followed by the suffix. |
| `Server.OverlappingPath` | kitz_gateway/server.py:41-47 | The only invocation path where prefix and suffix overlap is `/v0.1/tools/invoke`, and its name is the empty string. |
| `Server.PostNotFoundSpec` | kitz_gateway/server.py:41-45 | A POST outside the invocation paths is 404 `not found`, whatever the body or registry. Conversely, that exact reply happens only on such paths. |
| `Server.MalformedBodySpec` | kitz_gateway/server.py:48-50 | A malformed body on an invocation path is 400 `invalid json body`, and the reply does not depend on the registry or the clock. |
| `Server.ArgsSpec` | kitz_gateway/server.py:48-52 | The registry receives `body["args"]` when the body is a dict holding `args`. Otherwise it receives the empty dict. As written, this holds for every body other than `null`, which gets no reply. |
| `Server.StatusMapping` | kitz_gateway/server.py:53-62 | Success is 200 `{tool, result}`. `KeyError` is 404 with its `repr`. `ValueError` is 400 with its message. Any other exception gives no reply. Each status occurs exactly for its outcome. As written, `do_POST` replies the same way for every body other than `null`. |
| `Server.InvokePathDispatch` | kitz_gateway/server.py:47-62 | With the `null` case corrected, a decoded POST on the path of `name` asks the registry for `name` with the body's arguments. |
| `Server.InvokePathDispatchAsWritten` | kitz_gateway/server.py:47-62 | As written, a decoded POST on the path of `name` asks the registry for `name` with the body's arguments exactly when the body is not `null`. A `null` body gets no reply. |
| `Server.UnknownToolText` | kitz_gateway/server.py:55-56 | The 404 text for an unknown tool always contains `unknown tool: `. It contains the whole `unknown tool: <name>` unless `repr` must escape a character of the name. |
| `Server.UnknownToolReply` | kitz_gateway/server.py:53-56 | Invoking an unregistered name is 404 with the `repr` of `unknown tool: <name>`, for every body in the corrected handler and for every body other than `null` as written. |
| `Server.UnknownToolMentioned` | kitz_gateway/server.py:55-56 | The 404 text for any unknown name contains `unknown tool`. |
| `Server.NonDictArgsUnanswered` | kitz_gateway/tools.py:43-55 | In any registry, truthy non-dict `args` sent to a tool running the `echo` or `sum` function get no reply, because `.get` raises an `AttributeError` that nothing catches. |
| `Scenarios.NonDictArgsEcho` | kitz_gateway/tools.py:43-44 | In the built-in registry, truthy non-dict `args` sent to `echo` get no reply. |
| `Scenarios.AnyArgsUtcNow` | kitz_gateway/tools.py:47-48 | `utc_now` answers 200 for any `args` at all. |
| `Server.UtcNowAnswers` | kitz_gateway/tools.py:47-48 | In any registry that stores the `utc_now` function under `utc_now`, every `args` value is answered 200 with `{utc_iso: now}`. |
| `Server.NullBodyUnansweredAsWritten` | kitz_gateway/server.py:48-50 | As written, a JSON `null` body on any invocation path gets no reply. |
| `Server.NullBodyEcho` | kitz_gateway/server.py:48-52 | `echo` with a `null` body gets no reply as written. The corrected handler answers 200 `{echo: ""}`. |
| `Server.PostAnswersEveryBody` | kitz_gateway/server.py:39-62 | With the `null` case corrected, every decoded body on an invocation path is answered from the registry's outcome. A request goes unanswered only when the tool raised something other than `KeyError` or `ValueError`. The corrected and as-written handlers agree on every other body. |
| `Scenarios.DefaultGetExamples` | tests/test_gateway.py:33-42 | Health is 200 with version `0.1`. The listing is exactly the `echo`, `utc_now` and `sum` entries. |
| `Scenarios.DefaultSumExample` | tests/test_gateway.py:44-48 | POST `{"args": {"numbers": [1, 2, 3]}}` to `sum` is 200 with sum 6 and count 3. |
| `Scenarios.DefaultUnknownExample` | tests/test_gateway.py:50-53 | POST `{}` to `nope` is 404 with an error containing `unknown tool`. |

`list_tools` and `invoke` are pure functions of an immutable registry. So
listing never fails, never changes the registry, and gives the same answer
every time.

## Findings

| source | as written | input that shows it | evidently intended | confidence | as-written member | corrected member |
|---|---|---|---|---|---|---|
| kitz_gateway/server.py:48-50 | `_read_json_body` returns `None` both after it has answered a malformed body and when the body is the JSON text `null`. `do_POST` then returns, so nothing is written back. | `POST /v0.1/tools/echo/invoke` with body `null` | `null` is a body that is not a dict. The next line already treats such bodies as giving no arguments, so the call should answer `200 {tool: "echo", result: {echo: ""}}`. | medium (not executed) | `Server.NullBodyUnansweredAsWritten` | `Server.PostAnswersEveryBody` |

`Server.HandlePostAsWritten` is `do_POST` as written. `Server.HandlePost` is
the corrected version, and `Server.Route` uses it. `Server.NullBodyEcho`
shows both on the input above.

## Left out

- Wall clock: `utc_now`'s timestamp is the parameter `now`. The model says nothing about its ISO-8601 format or about timestamps never decreasing.
- Floating point: JSON numbers are integers only, so `sum` over floats is not modelled.
- Serving: `ThreadingHTTPServer`, `create_server`, `GatewayConfig`, the handler class binding and thread-per-connection concurrency are left out. The registry is immutable, so concurrent calls cannot interfere.
- Byte-level HTTP I/O: `_send_json` and the reading in `_read_json_body` are left out. That covers headers, `Content-Length`, `rfile`/`wfile`, UTF-8 and JSON encoding and decoding. The model takes the decoded body, or `Malformed`. An empty body stands for `{}`. A bad `Content-Length` header or a UTF-8 decode error escapes the handler in the source. The model has no input for either.
- JSON object key order and serialisation: payloads are maps, so the order of keys in the written JSON is not modelled.
- `urlparse`: the model takes the path component directly, so query strings and fragments are already stripped.
- `log_message` suppression has no effect on routing.
- HTTP methods other than GET and POST: the handler defines no method for them.
- `kitz_gateway/cli.py` is not part of this model: it only parses arguments and prints.
- Custom tools: a caller-supplied tool function is a total function from the argument value to a `Result`. A function that returns something other than a dict is not modelled.
- PyText.Repr: characters above U+00FF are all taken as printable. Python consults the Unicode database for them, and escapes some.
