/**
 * The chat routes: the aggregated `/api/chat` reply with its mapping of
 * upstream faults to HTTP errors, the `/api/chat/stream` server-sent-event
 * encoder, and `/api/health`.
 *
 * Requests reach these handlers already validated (`Schemas.ValidateRequest`
 * says which do); the route always passes its own `max_tokens` and
 * `temperature`, so the configured ones are never used on these paths.
 */
module ChatRoutes {
  import opened Wrappers
  import opened Text
  import opened Schemas
  import Config
  import opened LlmService

  /** The model name every aggregated reply reports, whatever is configured. */
  const ResponseModel := "Qwen2.5-1.5B-Instruct"

  const TimeoutDetail := "LLM service timed out. Please try again."

  const StatusDetailPrefix := "LLM returned "

  const OtherDetailPrefix := "LLM service error: "

  /** An `HTTPException` raised by a handler. */
  datatype HttpError = HttpError(status: int, detail: string)

  /**
   * The `except` clauses of `chat`: a timeout is a gateway timeout, every
   * other fault a bad gateway; an upstream status error reports the
   * upstream status code, any other fault its own message.
   */
  function ErrorFor(f: Fault): (e: HttpError)
    ensures e.status == 504 <==> f.Timeout?
    ensures e.status == 502 <==> !f.Timeout?
    ensures f.Timeout? ==> e.detail == TimeoutDetail
    ensures f.HttpStatus? ==> e.detail == StatusDetailPrefix + IntToString(f.code)
    ensures f.Other? ==> e.detail == OtherDetailPrefix + f.text
  {
    match f
    case Timeout(_) => HttpError(504, TimeoutDetail)
    case HttpStatus(code, _) => HttpError(502, StatusDetailPrefix + IntToString(code))
    case Other(text) => HttpError(502, OtherDetailPrefix + text)
  }

  /** The upstream status code can be read back from the detail of a status error. */
  lemma StatusCodeInDetail(code: int, text: string)
    ensures var d := ErrorFor(HttpStatus(code, text)).detail;
      StartsWith(d, StatusDetailPrefix) && ParseInt(d[|StatusDetailPrefix|..]) == Some(code)
  {
    var d := ErrorFor(HttpStatus(code, text)).detail;
    assert d[|StatusDetailPrefix|..] == IntToString(code);
    ParseIntOfIntToString(code);
  }

  /** What the upstream stream yields for a request passed on by a route. */
  function RouteStream(request: ChatRequest, settings: Config.Settings, llm: Llm, decode: Decoder): StreamOutcome {
    StreamSpec(settings, request.message, request.history, Some(request.maxTokens), Some(request.temperature), llm, decode)
  }

  /**
   * `chat`: the aggregated reply, reporting the fixed model name and the
   * number of deltas as the tokens used; a fault of the stream becomes the
   * HTTP error `ErrorFor` gives.
   */
  method Chat(request: ChatRequest, settings: Config.Settings, llm: Llm, decode: Decoder)
    returns (r: Result<ChatResponse, HttpError>)
    ensures var o := RouteStream(request, settings, llm, decode);
      && (r.Success? <==> o.fault.None?)
      && (r.Success? ==> r.value == ChatResponse(CompletionText(o.chunks), ResponseModel, |o.chunks|))
      && (r.Failure? ==> r.error == ErrorFor(o.fault.value))
  {
    var c := GetCompletion(settings, request.message, request.history,
                           Some(request.maxTokens), Some(request.temperature), llm, decode);
    match c
    case Success(completion) =>
      r := Success(ChatResponse(completion.text, ResponseModel, completion.tokens));
    case Failure(fault) =>
      r := Failure(ErrorFor(fault));
  }

  // ------------------------------------------------------------ event frames

  /** One server-sent event carrying `x` as its data. */
  function DataFrame(x: string): string {
    "data: " + x + "\n\n"
  }

  const DoneFrame := DataFrame(DoneMarker)

  function ErrorFrame(text: string): string {
    DataFrame("[ERROR] " + text)
  }

  /** The closing frame: `[DONE]` after a clean end, `[ERROR] …` after a fault. */
  function Terminator(fault: Option<Fault>): string {
    if fault.None? then DoneFrame else ErrorFrame(fault.value.text)
  }

  /**
   * `_event_generator`: one data frame per delta, in order, then exactly one
   * closing frame; the frames sent before a fault stay sent.
   */
  method EventGenerator(request: ChatRequest, settings: Config.Settings, llm: Llm, decode: Decoder)
    returns (frames: seq<string>)
    ensures var o := RouteStream(request, settings, llm, decode);
      && |frames| == |o.chunks| + 1
      && (forall k :: 0 <= k < |o.chunks| ==> frames[k] == DataFrame(o.chunks[k]))
      && frames[|o.chunks|] == Terminator(o.fault)
  {
    var chunks, fault := StreamCompletion(settings, request.message, request.history,
                                          Some(request.maxTokens), Some(request.temperature), llm, decode);
    frames := [];
    for i := 0 to |chunks|
      invariant |frames| == i
      invariant forall k :: 0 <= k < i ==> frames[k] == DataFrame(chunks[k])
    {
      frames := frames + [DataFrame(chunks[i])];
    }
    if fault.None? {
      frames := frames + [DoneFrame];
    } else {
      frames := frames + [ErrorFrame(fault.value.text)];
    }
  }

  /** The `StreamingResponse` a streaming request gets. */
  datatype EventStream = EventStream(mediaType: string, headers: map<string, string>, frames: seq<string>)

  const NoBufferingHeaders: map<string, string> :=
    map["Cache-Control" := "no-cache", "Connection" := "keep-alive", "X-Accel-Buffering" := "no"]

  /**
   * `chat_stream`: an event stream of the generator's frames, marked neither
   * to be cached nor buffered by a proxy.
   */
  method ChatStream(request: ChatRequest, settings: Config.Settings, llm: Llm, decode: Decoder)
    returns (response: EventStream)
    ensures response.mediaType == "text/event-stream"
    ensures response.headers == NoBufferingHeaders
    ensures var o := RouteStream(request, settings, llm, decode);
      && |response.frames| == |o.chunks| + 1
      && (forall k :: 0 <= k < |o.chunks| ==> response.frames[k] == DataFrame(o.chunks[k]))
      && response.frames[|o.chunks|] == Terminator(o.fault)
  {
    var frames := EventGenerator(request, settings, llm, decode);
    response := EventStream("text/event-stream", NoBufferingHeaders, frames);
  }

  /** `health`: always the body `{"status": "ok"}`. */
  function Health(): (body: map<string, string>)
    ensures body.Keys == {"status"}
    ensures body["status"] == "ok"
  {
    map["status" := "ok"]
  }

  // ------------------------------------------------------ reading the frames

  /**
   * A browser's event-stream reader, restricted to the `data` field and to
   * LF line ends: a `data:` line appends its value (one leading space
   * dropped) to the pending event, `data` alone appends "", a blank line
   * dispatches the pending event, and every other line is ignored.
   * Consecutive data values of one event are joined by a line feed.
   */
  function ReadEvents(lines: seq<string>, pending: Option<string>): seq<string>
    decreases |lines|
  {
    if lines == [] then []
    else
      var line := lines[0];
      if line == "" then
        (if pending.Some? then [pending.value] else []) + ReadEvents(lines[1..], None)
      else if line == "data" || StartsWith(line, "data:") then
        var v := line[|"data"|..];
        var v' := if v == "" then v else if |v| >= 2 && v[1] == ' ' then v[2..] else v[1..];
        ReadEvents(lines[1..], Some(if pending.Some? then pending.value + "\n" + v' else v'))
      else ReadEvents(lines[1..], pending)
  }

  function Lines(body: string): seq<string> {
    Split(body, '\n')
  }

  function DataFrames(xs: seq<string>): seq<string> {
    seq(|xs|, k requires 0 <= k < |xs| => DataFrame(xs[k]))
  }

  /** The lines of one data frame followed by more text. */
  lemma FrameLines(x: string, rest: string)
    requires '\n' !in x
    ensures Lines(DataFrame(x) + rest) == ["data: " + x, ""] + Lines(rest)
  {
    var a := "data: " + x;
    assert '\n' !in a by {
      forall k | 0 <= k < |a| ensures a[k] != '\n' {
        if k >= 6 { assert a[k] == x[k - 6]; }
      }
    }
    assert DataFrame(x) + rest == a + ['\n'] + ("" + ['\n'] + rest);
    SplitAround(a, "" + ['\n'] + rest, '\n');
    SplitAround("", rest, '\n');
    SplitWithoutSep(a, '\n');
    assert "" + ['\n'] + rest == "" + ['\n'] + rest;
  }

  /** A data frame's line hands its value back to the reader. */
  lemma FrameLineRead(x: string, tail: seq<string>)
    ensures ReadEvents(["data: " + x, ""] + tail, None) == [x] + ReadEvents(tail, None)
  {
    var line := "data: " + x;
    assert StartsWith(line, "data:") by { assert line[..5] == "data:"; }
    assert line[4..][2..] == x;
    var ls := [line, ""] + tail;
    assert ls[0] == line && ls[1..] == [""] + tail;
    assert ([""] + tail)[0] == "" && ([""] + tail)[1..] == tail;
  }

  /**
   * A reader recovers every delta from the frames, in order, as long as no
   * delta holds a line break.
   */
  lemma {:induction false} ReadBack(xs: seq<string>)
    requires forall k :: 0 <= k < |xs| ==> '\n' !in xs[k] && '\r' !in xs[k]
    ensures ReadEvents(Lines(Concat(DataFrames(xs))), None) == xs
  {
    if xs == [] {
      assert Concat(DataFrames(xs)) == "";
      assert Lines("") == [""];
    } else {
      var rest := Concat(DataFrames(xs[1..]));
      assert DataFrames(xs)[0] == DataFrame(xs[0]);
      assert DataFrames(xs)[1..] == DataFrames(xs[1..]);
      assert Concat(DataFrames(xs)) == DataFrame(xs[0]) + rest;
      FrameLines(xs[0], rest);
      FrameLineRead(xs[0], Lines(rest));
      ReadBack(xs[1..]);
      assert [xs[0]] + xs[1..] == xs;
    }
  }

  /**
   * What a reader receives from a whole event stream: the deltas, then
   * `[DONE]` or the `[ERROR] …` message, when neither the deltas nor the
   * fault's message hold a line break.
   */
  lemma StreamReadBack(o: StreamOutcome)
    requires forall k :: 0 <= k < |o.chunks| ==> '\n' !in o.chunks[k] && '\r' !in o.chunks[k]
    requires o.fault.Some? ==> '\n' !in o.fault.value.text && '\r' !in o.fault.value.text
    ensures var last := if o.fault.None? then DoneMarker else "[ERROR] " + o.fault.value.text;
      ReadEvents(Lines(Concat(DataFrames(o.chunks) + [Terminator(o.fault)])), None) == o.chunks + [last]
  {
    var last := if o.fault.None? then DoneMarker else "[ERROR] " + o.fault.value.text;
    assert '\n' !in last && '\r' !in last by {
      if o.fault.Some? {
        forall k | 0 <= k < |last| ensures last[k] != '\n' && last[k] != '\r' {
          if k >= 8 { assert last[k] == o.fault.value.text[k - 8]; }
        }
      }
    }
    assert Terminator(o.fault) == DataFrame(last);
    assert DataFrames(o.chunks) + [Terminator(o.fault)] == DataFrames(o.chunks + [last]);
    ReadBack(o.chunks + [last]);
  }

  /** A line that does not start with `data` is no `data` field. */
  lemma NotDataField(y: string)
    requires !StartsWith(y, "data")
    ensures y != "data" && !StartsWith(y, "data:")
  {
    if |y| >= 5 {
      assert y[..4] == y[..5][..4];
    }
  }

  /**
   * A delta holding a line break is cut: the reader sees its first line as
   * the event and drops the rest.
   */
  lemma LineBreakCutsDelta(x: string, y: string)
    requires '\n' !in x && '\n' !in y
    requires y != "" && !StartsWith(y, "data")
    ensures ReadEvents(Lines(DataFrame(x + "\n" + y)), None) == [x]
  {
    var a := "data: " + x;
    assert '\n' !in a by {
      forall k | 0 <= k < |a| ensures a[k] != '\n' {
        if k >= 6 { assert a[k] == x[k - 6]; }
      }
    }
    assert DataFrame(x + "\n" + y) == a + ['\n'] + (y + ['\n'] + ("" + ['\n'] + ""));
    SplitAround(a, y + ['\n'] + ("" + ['\n'] + ""), '\n');
    SplitAround(y, "" + ['\n'] + "", '\n');
    SplitAround("", "", '\n');
    SplitWithoutSep(a, '\n');
    SplitWithoutSep(y, '\n');
    var ls := [a, y, "", ""];
    assert Lines(DataFrame(x + "\n" + y)) == ls;
    assert StartsWith(a, "data:") by { assert a[..5] == "data:"; }
    assert a[4..][2..] == x;
    NotDataField(y);
    assert ls[1..] == [y, "", ""];
    assert [y, "", ""][1..] == ["", ""];
    assert ["", ""][1..] == [""];
    assert [""][1..] == [];
    assert ReadEvents([""], None) == [];
    assert ReadEvents(["", ""], Some(x)) == [x];
    assert ReadEvents([y, "", ""], Some(x)) == [x];
    assert ReadEvents(ls, None) == ReadEvents([y, "", ""], Some(x));
  }

  /**
   * The same holds for the closing frame: a fault message holding a line
   * break reaches the reader as its first line only, behind `[ERROR] `.
   */
  lemma LineBreakCutsErrorMessage(x: string, y: string)
    requires '\n' !in x && '\n' !in y
    requires y != "" && !StartsWith(y, "data")
    ensures ReadEvents(Lines(ErrorFrame(x + "\n" + y)), None) == ["[ERROR] " + x]
  {
    var e := "[ERROR] " + x;
    assert '\n' !in e by {
      forall k | 0 <= k < |e| ensures e[k] != '\n' {
        if k >= 8 { assert e[k] == x[k - 8]; }
      }
    }
    assert "[ERROR] " + (x + "\n" + y) == e + "\n" + y;
    LineBreakCutsDelta(e, y);
  }
}
