# EchoAI chat relay, modelled in Dafny

The EchoAI backend relays a voice assistant's chat turns to an upstream
OpenAI-compatible LLM server and hands the answer back to the browser. This
project models the relay's own logic:

- how it builds the upstream prompt window;
- how it reads the upstream server-sent-event stream line by line;
- how it aggregates the streamed deltas into one reply;
- how the chat routes encode events and turn upstream faults into HTTP errors;
- how request bodies are validated and given their defaults;
- how the settings are read from the environment.

Modules, one file each:

| file | module | models |
|---|---|---|
| `wrappers.dfy` | `Wrappers` | `Option` and `Result` |
| `text.dfy` | `Text` | the Python `str` operations the relay uses: `isspace`, `strip`, `startswith`, `"".join`, `split(",")`, `int()`, `f"{n}"` |
| `schemas.dfy` | `Schemas` | the request/response bodies, their field constraints and defaults |
| `config.dfy` | `Config` | `Settings.__init__` as a function from the environment map to settings or an error |
| `llm_service.dfy` | `LlmService` | `_build_messages`, the payload, `stream_completion`, `get_completion` |
| `chat_routes.dfy` | `ChatRoutes` | `chat`, `chat_stream` with `_event_generator`, `health` |

Parameters stand in for what the relay does not compute itself:

- The network is the function `Llm`. It maps the URL and payload to the
  upstream's answer. The answer is either no response, or a status line,
  the text lines of the body, and the fault (if any) raised when reading
  past the last line.
- JSON decoding of one event payload, with its `choices[0].delta.content`
  lookup, is the function `Decoder`. Its result is one of three things:
  - the payload is not JSON (`json.JSONDecodeError`, which the loop skips);
  - the lookup raises (the `IndexError` of an empty `choices` list, which
    escapes the loop and ends the stream with a fault);
  - the content, `""` when it is absent or falsy.
- Float parsing of `LLM_TEMPERATURE` is the function `FloatParser`.

`str.strip()` is modelled concretely, with the whitespace set of
`str.isspace()`. `int()` is modelled concretely too, but it trims a smaller
set (`Text.IntSpace`). It keeps characters below U+0080 as they are and
trims only ASCII whitespace there, so the separators U+001C to U+001F are
not ignored.

The stream encoder gets a partner: a browser-side event-stream reader
(`ChatRoutes.ReadEvents`) that keeps only the `data` field. Four lemmas
connect the two:

- `ChatRoutes.ReadBack` proves that the reader recovers every delta, in
  order, when no delta holds a line break.
- `ChatRoutes.StreamReadBack` proves that the reader then also sees the
  closing `[DONE]` or `[ERROR] …` event, provided the fault's message
  holds no line break either.
- `ChatRoutes.LineBreakCutsDelta` shows that the encoder does not escape
  line breaks. Take a delta made of two lines joined by one line feed,
  where the second line is non-empty and does not start with `data`. That
  delta reaches the reader as its first line only. A second line that
  starts with `data` is read as a data field instead; that case is not
  stated.
- `ChatRoutes.LineBreakCutsErrorMessage` shows the same for the `[ERROR]`
  frame. The message of an httpx status error spans two lines: the status
  and URL, then a "For more information check: …" line. A redirect status
  with a `Location` header has a third line, "Redirect location: …", in
  the middle; the lemma states the two-line form only. So after a non-2xx
  upstream answer the reader gets only the first line of the error.

Also, a delta that is literally `[DONE]` is encoded exactly like the
terminator.

## Model

| member | source | states |
|---|---|---|
| `Text.StripSpec` | backend/app/services/llm_service.py:87 | `strip()` returns a contiguous slice of its input that is empty or starts and ends with a non-whitespace character, and everything cut off on either side is whitespace |
| `Text.StripEmptyIffAllSpace` | backend/app/services/llm_service.py:109 | stripping gives the empty string exactly when the input is all whitespace |
| `Text.SplitSpec` | backend/app/core/config.py:34-36 | `split(",")` gives one more piece than there are commas, and no piece holds a comma |
| `Text.JoinSplit` | backend/app/core/config.py:34-36 | joining the pieces of a split with the separator gives the input back |
| `Text.SplitJoin` | backend/app/core/config.py:34-36 | splitting a join of comma-free pieces gives the pieces back |
| `Text.ParseInt` | backend/app/core/config.py:32 | `int()` of an empty or all-whitespace value is an error |
| `Text.SeparatorNotIgnored` | backend/app/core/config.py:32 | a value that starts with one of U+001C to U+001F is refused by `int()`, although `strip()` would treat that character as whitespace |
| `Text.ParseIntOfIntToString` | backend/app/api/routes/chat.py:39 | `int()` reads back every integer that `f"{n}"` prints |
| `Schemas.ValidateRequest` | backend/app/models/schemas.py:8-17 | a body validates exactly when it has no field error; then the message is the given one, history, max_tokens and temperature are the given ones or the defaults (`[]`, 150, 0.7), every entry keeps its role and content, and the request meets every constraint; otherwise the errors are listed and there is at least one |
| `Schemas.HistoryErrorsEmpty` | backend/app/models/schemas.py:15 | the history has no error exactly when every entry has a role that is one of system/user/assistant and content of 1 to 4096 characters |
| `Schemas.BadHistoryEntryRejected` | backend/app/models/schemas.py:15 | one bad history entry fails the whole request, with an error naming that entry's index |
| `Schemas.ValidFieldsAccepted` | backend/app/models/schemas.py:8-17 | a body validates when its message is valid, every history entry has a valid role and content, and the token limit and temperature, when given, are in range |
| `Schemas.MessageOnly` | backend/app/models/schemas.py:14-17 | a body holding only a valid message validates with empty history, 150 tokens and temperature 0.7 |
| `Schemas.NewChatResponse` | backend/app/models/schemas.py:20-23 | a response built without a token count reports 0 tokens used |
| `Config.LoadSettings` | backend/app/core/config.py:27-40 | construction fails with the missing-URL error exactly when `LLM_API_URL` is absent or empty; it succeeds exactly when, besides, the token limit, temperature and port parse; the URL is kept; no origin holds a comma; an integer error names `LLM_MAX_TOKENS` or `PORT` |
| `Config.DefaultsWhenUnset` | backend/app/core/config.py:31-40 | with only the URL set, the settings are model "Qwen2.5-1.5B-Instruct", 150 tokens, origins `http://localhost:5173` and `http://localhost:3000`, host 127.0.0.1, port 8000 and rate limit "30/minute" |
| `Config.UnsetKeyDefaults` | backend/app/core/config.py:31-40 | whatever the other keys hold, each unset key takes its default: model "Qwen2.5-1.5B-Instruct", 150 tokens, the parsed "0.7", the two local origins, host 127.0.0.1, port 8000, rate limit "30/minute" |
| `Config.DefaultCorsList` | backend/app/core/config.py:34-36 | the default origin text splits into the two local development origins |
| `Config.ParseDefaultMaxTokens` | backend/app/core/config.py:32 | the default token limit text parses to 150 |
| `Config.ParseDefaultPort` | backend/app/core/config.py:38 | the default port text parses to 8000 |
| `Config.SetKeysOverride` | backend/app/core/config.py:28-40 | every key that is set decides its slot: verbatim for strings, parsed for numbers, split for the origins |
| `Config.CorsOriginsRoundTrip` | backend/app/core/config.py:34-36 | rejoining the origins with commas gives the configured text back, and n commas give n + 1 origins |
| `Config.EmptyIntRejected` | backend/app/core/config.py:32 | a token limit set to an empty or blank value makes construction fail on that key |
| `Config.EmptyPortRejected` | backend/app/core/config.py:38 | a port set to an empty or blank value makes construction fail on that key, once the token limit and temperature parse |
| `LlmService.Recent` | backend/app/services/llm_service.py:53 | `history[-6:]` is the suffix of length min(6, \|history\|) |
| `LlmService.PromptWindow` | backend/app/services/llm_service.py:39-56 | the list has 2 + min(6, \|history\|) entries; the first is the system message, the last is the user's message, and the middle ones are the last history turns in their original order |
| `LlmService.BuildMessages` | backend/app/services/llm_service.py:39-56 | the appending loop builds exactly `PromptWindow` |
| `LlmService.RequestPayload` | backend/app/services/llm_service.py:69-75 | the payload asks for streaming, names the configured model, carries the prompt window, and uses the caller's max_tokens and temperature when given and the configured ones otherwise |
| `LlmService.LineStep` | backend/app/services/llm_service.py:85-96 | one line of the loop never yields an empty delta |
| `LlmService.DecodedChunksNonEmpty` | backend/app/services/llm_service.py:92-94 | every yielded delta is non-empty, and there are no more deltas than lines |
| `LlmService.InertLineIgnored` | backend/app/services/llm_service.py:85-96 | removing a line without the `data: ` prefix, or one whose payload is not JSON or has no content, leaves the outcome unchanged wherever the line stands |
| `LlmService.NothingAfterDone` | backend/app/services/llm_service.py:87-89 | lines after the first `[DONE]` line are never read: the outcome is that of the lines up to it, with no fault at the end even where reading on would have raised one |
| `LlmService.DecodeAppend` | backend/app/services/llm_service.py:84-96 | when a prefix of lines neither stops nor fails the stream, the outcome is the prefix's deltas followed by the rest's, so deltas keep the order of their lines |
| `LlmService.ReadLines` | backend/app/services/llm_service.py:84-96 | the `continue`/`break` loop over the body lines yields exactly the outcome `DecodeLines` defines |
| `LlmService.StreamCompletion` | backend/app/services/llm_service.py:59-96 | the request is sent with the defaulted payload; no response, or a non-2xx status, is a fault with no deltas; otherwise the line loop decides the outcome |
| `LlmService.CompletionText` | backend/app/services/llm_service.py:109 | the reply is the stripped join of the deltas, or the fallback sentence when that is empty; it is never empty and never starts or ends with whitespace |
| `LlmService.GetCompletion` | backend/app/services/llm_service.py:99-110 | a fault of the stream is passed on; otherwise the reply is `CompletionText` of the deltas and the token count is the number of deltas |
| `ChatRoutes.ErrorFor` | backend/app/api/routes/chat.py:34-42 | status 504 exactly for a timeout and 502 for every other fault; a status error's detail is "LLM returned " and the code; any other fault's detail is "LLM service error: " and its message |
| `ChatRoutes.StatusCodeInDetail` | backend/app/api/routes/chat.py:37-39 | the upstream status code can be parsed back from the 502 detail |
| `ChatRoutes.Chat` | backend/app/api/routes/chat.py:22-42 | the route passes the request's own max_tokens and temperature; it succeeds exactly when the stream ends without a fault; a success carries the reply text, the model "Qwen2.5-1.5B-Instruct" whatever is configured, and the delta count as tokens used; a fault becomes `ErrorFor`'s HTTP error |
| `ChatRoutes.EventGenerator` | backend/app/api/routes/chat.py:50-62 | one frame `data: <delta>\n\n` per delta, in order, then exactly one closing frame: `data: [DONE]\n\n` after a clean end, `data: [ERROR] <message>\n\n` after a fault, with the earlier frames kept |
| `ChatRoutes.ChatStream` | backend/app/api/routes/chat.py:45-72 | the response has media type `text/event-stream`, the headers `Cache-Control: no-cache`, `Connection: keep-alive` and `X-Accel-Buffering: no`, and the generator's frames |
| `ChatRoutes.Health` | backend/app/api/routes/chat.py:75-78 | the body is `{"status": "ok"}`, with no other key |
| `ChatRoutes.ReadBack` | backend/app/api/routes/chat.py:58 | an event-stream reader recovers every delta, in order, from the concatenated data frames when no delta holds a line break |
| `ChatRoutes.StreamReadBack` | backend/app/api/routes/chat.py:50-62 | when neither a delta nor the fault's message holds CR or LF, the reader receives the deltas followed by exactly one `[DONE]` or `[ERROR] <message>` event |
| `ChatRoutes.LineBreakCutsDelta` | backend/app/api/routes/chat.py:58 | a delta of two lines joined by one line feed, the second non-empty and not starting with `data`, reaches the reader as its first line only |
| `ChatRoutes.LineBreakCutsErrorMessage` | backend/app/api/routes/chat.py:60-62 | a fault message of two such lines reaches the reader as `[ERROR] ` and its first line only |

## Left out

- The shared `httpx.AsyncClient` (`_get_client`, `close_client`): its pool limits, timeouts and TLS settings are network plumbing. The network is the `Llm` parameter.
- Asynchronous streaming. `aiter_lines` is a finished sequence of lines, and a fault raised mid-body is the `ending` of that sequence. The model does not capture interleaving with the client or chunks already flushed when a later one fails, beyond their order.
- The request headers the relay sends (`Accept`, `Content-Type`) are not part of the payload model.
- JSON encoding of the payload and JSON decoding of event payloads. Both are library code; decoding is the `Decoder` parameter.
- `LlmService.LineStep`: any other exception of the `.get` chain (a `choices[0]` that is not an object, say) is folded into the one escaping case `Escapes`. A truthy `content` that is not a string (a number, say) cannot be expressed, because `Content` carries a string. The source yields such a value. `get_completion`'s `"".join` then raises `TypeError`, which becomes a 502 "LLM service error: …", and the stream route frames it with `f"data: {chunk}"`.
- The slowapi rate limiter on both chat routes. It is a foreign library whose counters are not visible. `rate_limit` is kept only as a setting.
- Authentication. The relay has none.
- `backend/app/main.py`: app wiring, CORS and GZip middleware, lifespan logging and the uvicorn entry point. The CORS origins are kept only as a setting.
- The `lru_cache` singleton of `get_settings`, and `load_dotenv`. The environment is a map given to `Config.LoadSettings`.
- `Config.LoadSettings`: `float()` is the abstract `FloatParser`, because decimal-to-binary rounding is out of scope.
- `Text.ParseInt`: models `int()` on ASCII digits with an optional sign. It does not model underscores between digits, non-ASCII decimal digits, or the limit of 4300 digits on converting a string to an integer.
- Pydantic's type coercion (a numeric string for `max_tokens`, an integer for `temperature`) and errors for values of the wrong JSON type. `Schemas.ValidateRequest` starts from fields that already have the right types. The 422 response body FastAPI renders from the errors is not modelled.
- `temperature` is a `real`: float rounding of the bounds 0.0 and 2.0 is not modelled.
- Logging everywhere.
- A client that disconnects in the middle of a stream.
- The browser reader `ChatRoutes.ReadEvents` handles only the `data` field and LF line ends. It does not model `event`, `id`, `retry`, or CR and CRLF line ends. That is why `ChatRoutes.ReadBack` requires deltas without CR and without LF.
