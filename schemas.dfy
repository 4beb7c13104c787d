/**
 * The request and response bodies of the chat API and the field constraints
 * the validation layer enforces on them before a handler runs.
 */
module Schemas {
  import opened Wrappers

  /** One earlier turn of the conversation. */
  datatype ChatMessage = ChatMessage(role: string, content: string)

  /** A validated chat request, every default already filled in. */
  datatype ChatRequest = ChatRequest(
    message: string,
    history: seq<ChatMessage>,
    maxTokens: int,
    temperature: real)

  datatype ChatResponse = ChatResponse(response: string, model: string, tokensUsed: int)

  const MaxTextLength := 4096
  const DefaultMaxTokens := 150
  const MinMaxTokens := 1
  const MaxMaxTokens := 1024
  const DefaultTemperature := 0.7
  const MinTemperature := 0.0
  const MaxTemperature := 2.0
  const DefaultTokensUsed := 0

  /** The role pattern `^(system|user|assistant)$`, matched against the whole value. */
  predicate ValidRole(role: string) {
    role == "system" || role == "user" || role == "assistant"
  }

  /** A length between 1 and 4096 characters. */
  predicate ValidText(s: string) {
    1 <= |s| <= MaxTextLength
  }

  predicate ValidMaxTokens(n: int) {
    MinMaxTokens <= n <= MaxMaxTokens
  }

  predicate ValidTemperature(t: real) {
    MinTemperature <= t <= MaxTemperature
  }

  predicate ValidMessage(m: ChatMessage) {
    ValidRole(m.role) && ValidText(m.content)
  }

  predicate ValidRequest(r: ChatRequest) {
    && ValidText(r.message)
    && (forall k :: 0 <= k < |r.history| ==> ValidMessage(r.history[k]))
    && ValidMaxTokens(r.maxTokens)
    && ValidTemperature(r.temperature)
  }

  // ------------------------------------------------------------- validation

  /** A request body as decoded, before validation; an absent field is `None`. */
  datatype RawMessage = RawMessage(role: Option<string>, content: Option<string>)

  datatype RawRequest = RawRequest(
    message: Option<string>,
    history: Option<seq<RawMessage>>,
    maxTokens: Option<int>,
    temperature: Option<real>)

  datatype MessageField = RoleField | ContentField

  /** Where an error was found: a top-level field, or a field of the i-th history entry. */
  datatype Loc = MessageLoc | HistoryLoc(index: nat, field: MessageField) | MaxTokensLoc | TemperatureLoc

  datatype ErrorKind = Missing | Invalid

  datatype FieldError = FieldError(loc: Loc, kind: ErrorKind)

  /** The errors of a required text-like field: absent, or present and failing `ok`. */
  function RequiredErrors(v: Option<string>, ok: string -> bool, loc: Loc): seq<FieldError> {
    match v
    case None => [FieldError(loc, Missing)]
    case Some(s) => if ok(s) then [] else [FieldError(loc, Invalid)]
  }

  function MessageErrors(m: RawMessage, index: nat): seq<FieldError> {
    RequiredErrors(m.role, ValidRole, HistoryLoc(index, RoleField))
      + RequiredErrors(m.content, ValidText, HistoryLoc(index, ContentField))
  }

  /** The errors of the history entries, in order, the first one at position `from`. */
  function HistoryErrors(h: seq<RawMessage>, from: nat): seq<FieldError> {
    if h == [] then [] else MessageErrors(h[0], from) + HistoryErrors(h[1..], from + 1)
  }

  /** Every error of a request body, in field order as the validator reports them. */
  function RequestErrors(raw: RawRequest): seq<FieldError> {
    RequiredErrors(raw.message, ValidText, MessageLoc)
      + HistoryErrors(raw.history.GetOr([]), 0)
      + (if ValidMaxTokens(raw.maxTokens.GetOr(DefaultMaxTokens)) then [] else [FieldError(MaxTokensLoc, Invalid)])
      + (if ValidTemperature(raw.temperature.GetOr(DefaultTemperature)) then [] else [FieldError(TemperatureLoc, Invalid)])
  }

  /** An entry without errors, as a validated message. */
  predicate WellFormed(m: RawMessage) {
    m.role.Some? && m.content.Some? && ValidRole(m.role.value) && ValidText(m.content.value)
  }

  lemma {:induction false} HistoryErrorsEmpty(h: seq<RawMessage>, from: nat)
    ensures HistoryErrors(h, from) == [] <==> forall k :: 0 <= k < |h| ==> WellFormed(h[k])
  {
    if h != [] {
      HistoryErrorsEmpty(h[1..], from + 1);
      assert forall k :: 1 <= k < |h| ==> h[k] == h[1..][k - 1];
    }
  }

  function ToMessage(m: RawMessage): ChatMessage
    requires WellFormed(m)
  {
    ChatMessage(m.role.value, m.content.value)
  }

  function ToMessages(h: seq<RawMessage>): (r: seq<ChatMessage>)
    requires forall k :: 0 <= k < |h| ==> WellFormed(h[k])
    ensures |r| == |h|
    ensures forall k :: 0 <= k < |h| ==> r[k] == ToMessage(h[k])
  {
    seq(|h|, k requires 0 <= k < |h| => ToMessage(h[k]))
  }

  /**
   * Validation of a request body: it succeeds exactly when no field has an
   * error, then fills in the defaults (empty history, 150 tokens,
   * temperature 0.7) and yields a request that meets every constraint.
   */
  function ValidateRequest(raw: RawRequest): (r: Result<ChatRequest, seq<FieldError>>)
    ensures r.Success? <==> RequestErrors(raw) == []
    ensures r.Failure? ==> r.error == RequestErrors(raw) && |r.error| > 0
    ensures r.Success? ==> ValidRequest(r.value)
    ensures r.Success? ==> && Some(r.value.message) == raw.message
                           && r.value.maxTokens == raw.maxTokens.GetOr(DefaultMaxTokens)
                           && r.value.temperature == raw.temperature.GetOr(DefaultTemperature)
    ensures r.Success? ==> var h := raw.history.GetOr([]);
      && |r.value.history| == |h|
      && forall k :: 0 <= k < |h| ==> Some(r.value.history[k].role) == h[k].role && Some(r.value.history[k].content) == h[k].content
  {
    var errors := RequestErrors(raw);
    if errors != [] then Failure(errors)
    else
      var h := raw.history.GetOr([]);
      HistoryErrorsEmpty(h, 0);
      Success(ChatRequest(raw.message.value, ToMessages(h),
                          raw.maxTokens.GetOr(DefaultMaxTokens),
                          raw.temperature.GetOr(DefaultTemperature)))
  }

  /**
   * A body whose fields all meet their constraints validates: the message
   * and every history entry are present and valid, and the token limit and
   * temperature, when given, are in range.
   */
  lemma ValidFieldsAccepted(raw: RawRequest)
    requires raw.message.Some? && ValidText(raw.message.value)
    requires forall k :: 0 <= k < |raw.history.GetOr([])| ==> WellFormed(raw.history.GetOr([])[k])
    requires raw.maxTokens.Some? ==> ValidMaxTokens(raw.maxTokens.value)
    requires raw.temperature.Some? ==> ValidTemperature(raw.temperature.value)
    ensures ValidateRequest(raw).Success?
  {
    HistoryErrorsEmpty(raw.history.GetOr([]), 0);
  }

  /** A body holding only a valid message validates, and every other field takes its default. */
  lemma MessageOnly(message: string)
    requires ValidText(message)
    ensures ValidateRequest(RawRequest(Some(message), None, None, None))
            == Success(ChatRequest(message, [], DefaultMaxTokens, DefaultTemperature))
  {
    var raw := RawRequest(Some(message), None, None, None);
    assert RequestErrors(raw) == [];
  }

  /** A history entry with a bad field makes the whole request fail, naming that entry. */
  lemma BadHistoryEntryRejected(raw: RawRequest, i: nat)
    requires raw.history.Some? && i < |raw.history.value|
    requires !WellFormed(raw.history.value[i])
    ensures ValidateRequest(raw).Failure?
    ensures exists e :: e in ValidateRequest(raw).error && e.loc.HistoryLoc? && e.loc.index == i
  {
    var h := raw.history.value;
    HistoryErrorsEmpty(h, 0);
    HistoryErrorAt(h, 0, i);
  }

  lemma {:induction false} HistoryErrorAt(h: seq<RawMessage>, from: nat, i: nat)
    requires i < |h| && !WellFormed(h[i])
    ensures exists e :: e in HistoryErrors(h, from) && e.loc.HistoryLoc? && e.loc.index == from + i
  {
    if i == 0 {
      var e := MessageErrors(h[0], from)[0];
      assert e in HistoryErrors(h, from);
    } else {
      HistoryErrorAt(h[1..], from + 1, i - 1);
      var e :| e in HistoryErrors(h[1..], from + 1) && e.loc.HistoryLoc? && e.loc.index == from + 1 + (i - 1);
      assert e in HistoryErrors(h, from);
    }
  }

  /** A response built without a token count reports 0 tokens. */
  function NewChatResponse(response: string, model: string, tokensUsed: Option<int>): (r: ChatResponse)
    ensures r.response == response && r.model == model
    ensures tokensUsed.None? ==> r.tokensUsed == DefaultTokensUsed
    ensures tokensUsed.Some? ==> r.tokensUsed == tokensUsed.value
  {
    ChatResponse(response, model, tokensUsed.GetOr(DefaultTokensUsed))
  }
}
