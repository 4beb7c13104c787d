/**
 * The relay's upstream client: it builds the message window and request
 * payload, reads the upstream server-sent-event stream line by line, and
 * aggregates the streamed deltas into one reply.
 *
 * The network is a parameter: `Llm` maps the URL and payload to what the
 * upstream answers (a status, the text lines of its body, and the fault, if
 * any, that cuts the body short). JSON decoding of one event payload is a
 * parameter too (`Decoder`).
 */
module LlmService {
  import opened Wrappers
  import opened Text
  import opened Schemas
  import Config

  /** One `{"role": ..., "content": ...}` entry of the upstream message list. */
  datatype WireMessage = WireMessage(role: string, content: string)

  const SystemPrompt: string :=
    "You are a helpful voice assistant. Keep responses concise "
    + "(1-2 sentences max) for natural conversation. Be friendly and direct."

  /** How many history turns are forwarded. */
  const HistoryWindow := 6

  const Fallback := "I understand. Can you tell me more?"

  const DataPrefix := "data: "

  const DoneMarker := "[DONE]"

  function Min(a: int, b: int): int {
    if a <= b then a else b
  }

  function ToWire(m: ChatMessage): WireMessage {
    WireMessage(m.role, m.content)
  }

  /** `history[-6:]`: the last six turns, or all of them when there are fewer. */
  function Recent(history: seq<ChatMessage>): (r: seq<ChatMessage>)
    ensures |r| == Min(HistoryWindow, |history|)
    ensures r == history[|history| - |r|..]
  {
    if |history| <= HistoryWindow then history else history[|history| - HistoryWindow..]
  }

  /**
   * The message list sent upstream: the fixed system message, the last six
   * history turns in their original order, then the new user message.
   */
  function PromptWindow(message: string, history: seq<ChatMessage>): (r: seq<WireMessage>)
    ensures |r| == 2 + Min(HistoryWindow, |history|)
    ensures r[0] == WireMessage("system", SystemPrompt)
    ensures r[|r| - 1] == WireMessage("user", message)
    ensures forall i :: 1 <= i < |r| - 1 ==> r[i] == ToWire(history[|history| - |r| + 1 + i])
  {
    var recent := Recent(history);
    [WireMessage("system", SystemPrompt)]
      + seq(|recent|, i requires 0 <= i < |recent| => ToWire(recent[i]))
      + [WireMessage("user", message)]
  }

  /** `_build_messages`: appends the window to the list one entry at a time. */
  method BuildMessages(message: string, history: seq<ChatMessage>) returns (msgs: seq<WireMessage>)
    ensures msgs == PromptWindow(message, history)
  {
    msgs := [WireMessage("system", SystemPrompt)];
    var recent := Recent(history);
    for i := 0 to |recent|
      invariant |msgs| == 1 + i
      invariant msgs[0] == WireMessage("system", SystemPrompt)
      invariant forall k :: 0 <= k < i ==> msgs[1 + k] == ToWire(recent[k])
    {
      msgs := msgs + [ToWire(recent[i])];
    }
    msgs := msgs + [WireMessage("user", message)];
  }

  // ---------------------------------------------------------------- payload

  datatype Payload = Payload(
    model: string,
    messages: seq<WireMessage>,
    maxTokens: int,
    temperature: real,
    stream: bool)

  /**
   * The request body: the configured model, the prompt window, the caller's
   * token limit and temperature or, when the caller gives none, the
   * configured ones; streaming is always requested.
   */
  function RequestPayload(settings: Config.Settings, message: string, history: seq<ChatMessage>,
                          maxTokens: Option<int>, temperature: Option<real>): (p: Payload)
    ensures p.stream
    ensures p.model == settings.llmModel
    ensures p.messages == PromptWindow(message, history)
    ensures maxTokens.Some? ==> p.maxTokens == maxTokens.value
    ensures maxTokens.None? ==> p.maxTokens == settings.llmMaxTokens
    ensures temperature.Some? ==> p.temperature == temperature.value
    ensures temperature.None? ==> p.temperature == settings.llmTemperature
  {
    Payload(settings.llmModel, PromptWindow(message, history),
            maxTokens.GetOr(settings.llmMaxTokens), temperature.GetOr(settings.llmTemperature), true)
  }

  // ---------------------------------------------------------------- upstream

  /** The exceptions the relay distinguishes; `text` is what `str(exc)` gives. */
  datatype Fault =
    | Timeout(text: string)
    | HttpStatus(code: int, text: string)
    | Other(text: string)

  /**
   * What the upstream does with one request: no response at all, or a
   * status line, the text lines of the body, and the fault (if any) raised
   * when reading past the last of them.
   */
  datatype Upstream =
    | Unreachable(fault: Fault)
    | Responded(status: int, statusError: string, lines: seq<string>, ending: Option<Fault>)

  type Llm = (string, Payload) -> Upstream

  /**
   * JSON decoding of one event payload and the lookup of
   * `choices[0].delta.content`: not JSON at all, a lookup that raises (an
   * empty `choices` list), or the content, "" when it is absent or falsy.
   */
  datatype Decoded = NotJson | Escapes(text: string) | Content(delta: string)

  type Decoder = string -> Decoded

  /** The deltas a stream yielded, in order, and the fault that ended it, if any. */
  datatype StreamOutcome = StreamOutcome(chunks: seq<string>, fault: Option<Fault>)

  predicate IsSuccess(status: int) {
    200 <= status < 300
  }

  /** The stripped payload of a `data: ` line. */
  function DataPayload(line: string): string
    requires StartsWith(line, DataPrefix)
  {
    Strip(line[|DataPrefix|..])
  }

  predicate IsDoneLine(line: string) {
    StartsWith(line, DataPrefix) && DataPayload(line) == DoneMarker
  }

  /** What the reader does with one line. */
  datatype Step = Skip | Stop | Fail(text: string) | Yield(delta: string)

  /**
   * One pass of the line loop: lines without the `data: ` prefix are
   * skipped, the payload is stripped, `[DONE]` stops reading, payloads that
   * are not JSON are skipped, a lookup that raises fails the stream, and
   * only non-empty content is yielded.
   */
  function LineStep(line: string, decode: Decoder): (step: Step)
    ensures step.Yield? ==> step.delta != ""
  {
    if !StartsWith(line, DataPrefix) then Skip
    else
      var data := DataPayload(line);
      if data == DoneMarker then Stop
      else
        match decode(data)
        case NotJson => Skip
        case Escapes(text) => Fail(text)
        case Content(delta) => if delta == "" then Skip else Yield(delta)
  }

  /** A line the reader passes over: no `data: ` prefix, or a payload that is not JSON or has no content. */
  predicate Inert(line: string, decode: Decoder) {
    || !StartsWith(line, DataPrefix)
    || (DataPayload(line) != DoneMarker
        && (decode(DataPayload(line)).NotJson? || decode(DataPayload(line)) == Content("")))
  }

  /** A line after which the reader goes on reading. */
  predicate Continues(line: string, decode: Decoder) {
    LineStep(line, decode).Skip? || LineStep(line, decode).Yield?
  }

  function Prepend(delta: string, o: StreamOutcome): StreamOutcome {
    StreamOutcome([delta] + o.chunks, o.fault)
  }

  /**
   * The line loop of the stream reader over a whole body; `ending` is the
   * fault met when the lines run out.
   */
  function DecodeLines(lines: seq<string>, decode: Decoder, ending: Option<Fault>): StreamOutcome {
    if lines == [] then StreamOutcome([], ending)
    else
      match LineStep(lines[0], decode)
      case Skip => DecodeLines(lines[1..], decode, ending)
      case Stop => StreamOutcome([], None)
      case Fail(text) => StreamOutcome([], Some(Other(text)))
      case Yield(delta) => Prepend(delta, DecodeLines(lines[1..], decode, ending))
  }

  /** Every yielded delta is non-empty, and no line yields more than one. */
  lemma {:induction false} DecodedChunksNonEmpty(lines: seq<string>, decode: Decoder, ending: Option<Fault>)
    ensures var o := DecodeLines(lines, decode, ending);
      |o.chunks| <= |lines| && forall k :: 0 <= k < |o.chunks| ==> o.chunks[k] != ""
  {
    if lines != [] {
      DecodedChunksNonEmpty(lines[1..], decode, ending);
    }
  }

  /** A line that yields nothing can be removed without changing the outcome. */
  lemma {:induction false} InertLineIgnored(pre: seq<string>, line: string, post: seq<string>,
                                            decode: Decoder, ending: Option<Fault>)
    requires Inert(line, decode)
    ensures DecodeLines(pre + [line] + post, decode, ending) == DecodeLines(pre + post, decode, ending)
  {
    assert LineStep(line, decode) == Skip;
    if pre == [] {
      assert (pre + [line] + post)[0] == line && (pre + [line] + post)[1..] == post;
      assert pre + post == post;
    } else {
      InertLineIgnored(pre[1..], line, post, decode, ending);
      assert (pre + [line] + post)[1..] == pre[1..] + [line] + post;
      assert (pre + post)[1..] == pre[1..] + post;
    }
  }

  /** Nothing after a `[DONE]` line is read, and the stream then ends without a fault. */
  lemma {:induction false} NothingAfterDone(pre: seq<string>, line: string, post: seq<string>,
                                            decode: Decoder, ending: Option<Fault>)
    requires IsDoneLine(line)
    ensures DecodeLines(pre + [line] + post, decode, ending) == DecodeLines(pre + [line], decode, None)
  {
    if pre != [] {
      NothingAfterDone(pre[1..], line, post, decode, ending);
      assert (pre + [line] + post)[1..] == pre[1..] + [line] + post;
      assert (pre + [line])[1..] == pre[1..] + [line];
    }
  }

  /**
   * When the first part of the input neither stops nor fails the stream,
   * the outcome is that part's deltas followed by the rest's: deltas come
   * out in the order of their lines.
   */
  lemma {:induction false} DecodeAppend(a: seq<string>, b: seq<string>, decode: Decoder, ending: Option<Fault>)
    requires forall k :: 0 <= k < |a| ==> Continues(a[k], decode)
    ensures var rest := DecodeLines(b, decode, ending);
      DecodeLines(a + b, decode, ending) == StreamOutcome(DecodeLines(a, decode, None).chunks + rest.chunks, rest.fault)
  {
    if a == [] {
      assert a + b == b;
    } else {
      DecodeAppend(a[1..], b, decode, ending);
      assert (a + b)[1..] == a[1..] + b;
    }
  }

  /** What the reader yields for one upstream answer: `raise_for_status`, then the line loop. */
  function Receive(u: Upstream, decode: Decoder): StreamOutcome {
    match u
    case Unreachable(f) => StreamOutcome([], Some(f))
    case Responded(status, statusError, lines, ending) =>
      if IsSuccess(status) then DecodeLines(lines, decode, ending)
      else StreamOutcome([], Some(HttpStatus(status, statusError)))
  }

  function StreamSpec(settings: Config.Settings, message: string, history: seq<ChatMessage>,
                      maxTokens: Option<int>, temperature: Option<real>, llm: Llm, decode: Decoder): StreamOutcome
  {
    Receive(llm(settings.llmApiUrl, RequestPayload(settings, message, history, maxTokens, temperature)), decode)
  }

  /**
   * `stream_completion`: posts the payload, checks the status, and reads
   * the answer line by line, collecting what it yields until the stream
   * stops or fails.
   */
  method StreamCompletion(settings: Config.Settings, message: string, history: seq<ChatMessage>,
                          maxTokens: Option<int>, temperature: Option<real>, llm: Llm, decode: Decoder)
    returns (chunks: seq<string>, fault: Option<Fault>)
    ensures StreamOutcome(chunks, fault) == StreamSpec(settings, message, history, maxTokens, temperature, llm, decode)
  {
    var msgs := BuildMessages(message, history);
    var payload := Payload(settings.llmModel, msgs,
                           if maxTokens.Some? then maxTokens.value else settings.llmMaxTokens,
                           if temperature.Some? then temperature.value else settings.llmTemperature,
                           true);
    var upstream := llm(settings.llmApiUrl, payload);
    if upstream.Unreachable? {
      chunks, fault := [], Some(upstream.fault);
    } else if !IsSuccess(upstream.status) {
      chunks, fault := [], Some(HttpStatus(upstream.status, upstream.statusError));
    } else {
      chunks, fault := ReadLines(upstream.lines, decode, upstream.ending);
    }
  }

  /** The `async for line in resp.aiter_lines()` loop of `stream_completion`. */
  method ReadLines(lines: seq<string>, decode: Decoder, ending: Option<Fault>)
    returns (chunks: seq<string>, fault: Option<Fault>)
    ensures StreamOutcome(chunks, fault) == DecodeLines(lines, decode, ending)
  {
    chunks, fault := [], ending;
    var i := 0;
    while i < |lines|
      invariant 0 <= i <= |lines|
      invariant fault == ending
      invariant DecodeLines(lines, decode, ending)
                == StreamOutcome(chunks + DecodeLines(lines[i..], decode, ending).chunks,
                                 DecodeLines(lines[i..], decode, ending).fault)
    {
      var line := lines[i];
      assert lines[i..][0] == line && lines[i..][1..] == lines[i + 1..];
      i := i + 1;
      if !StartsWith(line, DataPrefix) {
        continue;
      }
      var data := Strip(line[|DataPrefix|..]);
      if data == DoneMarker {
        fault := None;
        break;
      }
      match decode(data)
      case NotJson =>
        continue;
      case Escapes(text) =>
        fault := Some(Other(text));
        break;
      case Content(delta) =>
        if delta != "" {
          chunks := chunks + [delta];
        }
    }
  }

  // --------------------------------------------------------------- aggregate

  datatype Completion = Completion(text: string, tokens: nat)

  /**
   * The reply text: the joined deltas with surrounding whitespace removed,
   * or the fixed fallback sentence when nothing but whitespace arrived. It is
   * never empty and never starts or ends with whitespace.
   */
  function CompletionText(chunks: seq<string>): (text: string)
    ensures text != [] && !IsSpace(text[0]) && !IsSpace(text[|text| - 1])
    ensures AllSpace(Concat(chunks)) ==> text == Fallback
    ensures !AllSpace(Concat(chunks)) ==> text == Strip(Concat(chunks))
  {
    var joined := Strip(Concat(chunks));
    StripEmptyIffAllSpace(Concat(chunks));
    StripSpec(Concat(chunks));
    if joined == "" then Fallback else joined
  }

  /**
   * `get_completion`: collects every delta of the stream, then returns the
   * reply text and, as the token count, the number of deltas; a fault of
   * the stream is passed on.
   */
  method GetCompletion(settings: Config.Settings, message: string, history: seq<ChatMessage>,
                       maxTokens: Option<int>, temperature: Option<real>, llm: Llm, decode: Decoder)
    returns (r: Result<Completion, Fault>)
    ensures var o := StreamSpec(settings, message, history, maxTokens, temperature, llm, decode);
      && (o.fault.None? ==> r == Success(Completion(CompletionText(o.chunks), |o.chunks|)))
      && (o.fault.Some? ==> r == Failure(o.fault.value))
  {
    var chunks, fault := StreamCompletion(settings, message, history, maxTokens, temperature, llm, decode);
    var parts: seq<string> := [];
    for i := 0 to |chunks|
      invariant parts == chunks[..i]
    {
      parts := parts + [chunks[i]];
    }
    assert parts == chunks;
    if fault.Some? {
      return Failure(fault.value);
    }
    var joined := Strip(Concat(parts));
    StripEmptyIffAllSpace(Concat(parts));
    var text := if joined == "" then Fallback else joined;
    assert text == CompletionText(parts);
    r := Success(Completion(text, |parts|));
  }
}
