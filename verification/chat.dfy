/**
 * The chat controller: the message list, the send pipeline (guard, user
 * message, "Thinking..." placeholder, request with bounded retry, body
 * parsing, reply extraction, placeholder replacement) and clearing.
 */
module Chat {
  import opened Base
  import opened Types
  import opened JsText
  import Constants

  /** How many times a failed request is retried after the first attempt. */
  const RetryAttempts: nat := 2

  const ThinkingText: string := "Thinking..."
  const TimeoutText: string := "Request timed out. Please try again."
  const NoResponseText: string := "No response received."
  const IssuePrefix: string := "Sorry, I ran into an issue: "
  const UnexpectedText: string := "Unexpected error occurred."

  /**
   * A parsed JSON value, reduced to what the client inspects: strings,
   * objects (only their `output` and `error` members matter) and any other
   * value (number, boolean, null, array), kept as its `String()` rendering
   * and its JavaScript truthiness.
   */
  datatype Json =
    | JStr(s: string)
    | JObj(output: Option<Json>, error: Option<Json>)
    | JOther(rendering: string, truthy: bool)

  /** The object literal `{}`. */
  const EmptyObject: Json := JObj(None, None)

  /** What `JSON.parse` makes of a body: a value, or a `SyntaxError` with its message. */
  datatype Parsed = Valid(json: Json) | Invalid(syntaxMessage: string)

  /**
   * A received HTTP response: its status, its `Content-Type` header (`""`
   * when absent), the body text and what parsing that text as JSON gives.
   */
  datatype HttpResponse = HttpResponse(status: nat, contentType: string, bodyText: string, parsed: Parsed)

  /** `response.ok`. */
  predicate IsOk(r: HttpResponse)
  {
    200 <= r.status <= 299
  }

  /**
   * What a rejected promise carries: an `AbortError` (with the engine's own
   * message), another `Error` with its message, or a non-`Error` value.
   */
  datatype Thrown = AbortError(abortMessage: string) | Failure(message: string) | NonError

  /** What one `fetch` call gives: a response, or a rejection. */
  datatype Attempt = Responded(response: HttpResponse) | Rejected(thrown: Thrown)

  /** The settled result of the retrying fetch and how many `fetch` calls it made. */
  datatype Fetched = Fetched(result: Result<HttpResponse, Thrown>, calls: nat)

  /** The JSON body posted to the agent endpoint. */
  datatype WebhookRequest = WebhookRequest(category: string, text: string)

  /** A rejection that the retry logic retries: an `Error` that is not an `AbortError`. */
  predicate Retryable(a: Attempt)
  {
    a.Rejected? && a.thrown.Failure?
  }

  /** The promise outcome of one attempt. */
  function Settle(a: Attempt): Result<HttpResponse, Thrown>
  {
    match a
    case Responded(r) => Ok(r)
    case Rejected(e) => Err(e)
  }

  /**
   * `fetchWithTimeout(url, options, retryCount)`: `attempts[i]` is what the
   * network gives to the i-th call of `fetch`. A call that rejects with a
   * retryable error is retried while `retryCount < RetryAttempts`; anything
   * else (a response, an abort, a non-`Error` rejection, or the last retry
   * failing) settles the whole call.
   */
  function FetchWithTimeout(attempts: seq<Attempt>, retryCount: nat): (f: Fetched)
    requires retryCount <= RetryAttempts < |attempts|
    decreases RetryAttempts - retryCount
    ensures retryCount < f.calls <= RetryAttempts + 1
    ensures forall i :: retryCount <= i < f.calls - 1 ==> Retryable(attempts[i])
    ensures f.calls <= RetryAttempts ==> !Retryable(attempts[f.calls - 1])
    ensures f.result == Settle(attempts[f.calls - 1])
  {
    match attempts[retryCount]
    case Responded(r) => Fetched(Ok(r), retryCount + 1)
    case Rejected(e) =>
      if retryCount < RetryAttempts && e.Failure? then FetchWithTimeout(attempts, retryCount + 1)
      else Fetched(Err(e), retryCount + 1)
  }

  /** An abort ends the request at once: it is never retried and is what the request rejects with. */
  lemma AbortIsNeverRetried(attempts: seq<Attempt>, k: nat)
    requires RetryAttempts < |attempts|
    requires k < FetchWithTimeout(attempts, 0).calls && attempts[k].Rejected? && attempts[k].thrown.AbortError?
    ensures FetchWithTimeout(attempts, 0).calls == k + 1
    ensures FetchWithTimeout(attempts, 0).result == Err(attempts[k].thrown)
  {
  }

  /** When every call fails with a retryable error, exactly three calls are made and the last error is rethrown. */
  lemma LastErrorIsRethrown(attempts: seq<Attempt>)
    requires RetryAttempts < |attempts|
    requires forall i :: 0 <= i <= RetryAttempts ==> Retryable(attempts[i])
    ensures FetchWithTimeout(attempts, 0).calls == RetryAttempts + 1
    ensures FetchWithTimeout(attempts, 0).result == Settle(attempts[RetryAttempts])
  {
  }

  /** The first response received, after retryable failures only, is the one the request resolves with. */
  lemma FirstResponseWins(attempts: seq<Attempt>, k: nat)
    requires k <= RetryAttempts < |attempts|
    requires forall i :: 0 <= i < k ==> Retryable(attempts[i])
    requires attempts[k].Responded?
    ensures FetchWithTimeout(attempts, 0) == Fetched(Ok(attempts[k].response), k + 1)
  {
  }

  /** The content type names JSON. */
  predicate IsJsonType(contentType: string) {
    Includes(contentType, "application/json")
  }

  /** The content type names a text format. */
  predicate IsTextType(contentType: string) {
    Includes(contentType, "text/")
  }

  /**
   * `parseResponse`: a content type containing `application/json` is parsed
   * as JSON (a syntax error rejects); otherwise one containing `text/` is
   * parsed as JSON with `{output: text}` as the fallback; otherwise `{}`.
   */
  function ParseResponse(r: HttpResponse): (data: Result<Json, Thrown>)
    ensures data.Err? ==> IsJsonType(r.contentType) && r.parsed.Invalid?
    ensures (IsJsonType(r.contentType) || IsTextType(r.contentType)) && r.parsed.Valid? ==>
              data == Ok(r.parsed.json)
    ensures IsJsonType(r.contentType) && r.parsed.Invalid? ==>
              data == Err(Failure(r.parsed.syntaxMessage))
    ensures !IsJsonType(r.contentType) && IsTextType(r.contentType) && r.parsed.Invalid? ==>
              data == Ok(JObj(Some(JStr(r.bodyText)), None))
    ensures !IsJsonType(r.contentType) && !IsTextType(r.contentType) ==>
              data == Ok(EmptyObject)
  {
    if IsJsonType(r.contentType) then
      match r.parsed
      case Valid(v) => Ok(v)
      case Invalid(m) => Err(Failure(m))
    else if IsTextType(r.contentType) then
      match r.parsed
      case Valid(v) => Ok(v)
      case Invalid(_) => Ok(JObj(Some(JStr(r.bodyText)), None))
    else Ok(EmptyObject)
  }

  /**
   * `extractAgentText`: the body itself when it is a string, else its
   * string `output` member, else the "No response received." placeholder.
   */
  function ExtractAgentText(data: Json): (text: string)
    ensures data == JStr(text) || (data.JObj? && data.output == Some(JStr(text))) || text == NoResponseText
    ensures data.JStr? ==> text == data.s
    ensures !data.JStr? && data.JObj? && data.output.Some? && data.output.value.JStr? ==>
              text == data.output.value.s
  {
    match data
    case JStr(s) => s
    case JObj(Some(JStr(o)), _) => o
    case _ => NoResponseText
  }

  /** `String(value)`, the message of `new Error(value)`. */
  function JsString(value: Json): (text: string)
    ensures value.JStr? ==> text == value.s
    ensures value.JObj? ==> text == "[object Object]"
    ensures value.JOther? ==> text == value.rendering
  {
    match value
    case JStr(s) => s
    case JObj(_, _) => "[object Object]"
    case JOther(rendering, _) => rendering
  }

  /** The message thrown for a non-ok response: the body's `error` member, else `Server error: <status>`. */
  function ServerErrorText(data: Json, status: nat): (text: string)
    ensures data.JObj? && data.error.Some? ==> text == JsString(data.error.value)
    ensures !(data.JObj? && data.error.Some?) ==> text == "Server error: " + DecimalString(status)
  {
    if data.JObj? && data.error.Some? then JsString(data.error.value)
    else "Server error: " + DecimalString(status)
  }

  /** The text shown for a caught error. */
  function ErrorMessage(e: Thrown): (text: string)
    ensures e.AbortError? ==> text == TimeoutText
    ensures e.Failure? ==> text == e.message
    ensures e.NonError? ==> text == UnexpectedText
  {
    match e
    case AbortError(_) => TimeoutText
    case Failure(m) => m
    case NonError => UnexpectedText
  }

  /**
   * Everything `sendMessage` awaits, as one outcome: the agent's reply text,
   * or what was thrown (by `fetch`, by body parsing, or for a non-ok status).
   */
  function Request(attempts: seq<Attempt>): (r: Result<string, Thrown>)
    requires RetryAttempts < |attempts|
    ensures r.Ok? ==> FetchWithTimeout(attempts, 0).result.Ok? && IsOk(FetchWithTimeout(attempts, 0).result.value)
    ensures r.Err? && !r.error.Failure? ==> FetchWithTimeout(attempts, 0).result == Err(r.error)
    ensures FetchWithTimeout(attempts, 0).result.Err? ==> r == Err(FetchWithTimeout(attempts, 0).result.error)
    ensures var f := FetchWithTimeout(attempts, 0).result;
            f.Ok? && ParseResponse(f.value).Err? ==> r == Err(ParseResponse(f.value).error)
    ensures var f := FetchWithTimeout(attempts, 0).result;
            f.Ok? && ParseResponse(f.value).Ok? ==>
              r == if IsOk(f.value) then Ok(ExtractAgentText(ParseResponse(f.value).value))
                   else Err(Failure(ServerErrorText(ParseResponse(f.value).value, f.value.status)))
  {
    var f := FetchWithTimeout(attempts, 0);
    match f.result
    case Err(e) => Err(e)
    case Ok(resp) =>
      match ParseResponse(resp)
      case Err(e) => Err(e)
      case Ok(data) =>
        if !IsOk(resp) then Err(Failure(ServerErrorText(data, resp.status)))
        else Ok(ExtractAgentText(data))
  }

  /**
   * A successful JSON response `{"output": x}` yields the reply `x`, whether
   * it answers the first call or a retry after network failures.
   */
  lemma JsonOutputIsReply(attempts: seq<Attempt>, k: nat, x: string)
    requires k <= RetryAttempts < |attempts|
    requires forall i :: 0 <= i < k ==> Retryable(attempts[i])
    requires attempts[k].Responded? && IsOk(attempts[k].response)
    requires IsJsonType(attempts[k].response.contentType)
    requires attempts[k].response.parsed.Valid? && attempts[k].response.parsed.json.JObj?
    requires attempts[k].response.parsed.json.output == Some(JStr(x))
    ensures Request(attempts) == Ok(x)
  {
    FirstResponseWins(attempts, k);
  }

  /** A non-ok JSON response `{"error": m}` fails with the message `m`, shown after the apology prefix. */
  lemma ErrorFieldIsReported(attempts: seq<Attempt>, k: nat, m: string)
    requires k <= RetryAttempts < |attempts|
    requires forall i :: 0 <= i < k ==> Retryable(attempts[i])
    requires attempts[k].Responded? && !IsOk(attempts[k].response)
    requires IsJsonType(attempts[k].response.contentType)
    requires attempts[k].response.parsed.Valid? && attempts[k].response.parsed.json.JObj?
    requires attempts[k].response.parsed.json.error == Some(JStr(m))
    ensures Request(attempts) == Err(Failure(m))
    ensures IssuePrefix + ErrorMessage(Request(attempts).error) == IssuePrefix + m
  {
    FirstResponseWins(attempts, k);
  }

  /** A non-ok response without an `error` member fails with `Server error: <status>`. */
  lemma StatusIsReportedWithoutErrorField(attempts: seq<Attempt>, k: nat)
    requires k <= RetryAttempts < |attempts|
    requires forall i :: 0 <= i < k ==> Retryable(attempts[i])
    requires attempts[k].Responded? && !IsOk(attempts[k].response)
    requires ParseResponse(attempts[k].response).Ok?
    requires !ParseResponse(attempts[k].response).value.JObj?
             || ParseResponse(attempts[k].response).value.error.None?
    ensures Request(attempts) == Err(Failure("Server error: " + DecimalString(attempts[k].response.status)))
  {
    FirstResponseWins(attempts, k);
  }

  /** Sets the text of every message carrying identifier `id` (`prev.map(... msg.id === id ...)`). */
  function ReplaceTextById(ms: seq<Message>, id: string, text: string): (r: seq<Message>)
    ensures |r| == |ms|
    ensures forall i :: 0 <= i < |ms| ==> r[i] == if ms[i].id == id then ms[i].(text := text) else ms[i]
  {
    if ms == [] then []
    else [if ms[0].id == id then ms[0].(text := text) else ms[0]] + ReplaceTextById(ms[1..], id, text)
  }

  /** Sets the text of every message whose text is "Thinking..." (`prev.map(... msg.text === "Thinking..." ...)`). */
  function ReplaceThinking(ms: seq<Message>, text: string): (r: seq<Message>)
    ensures |r| == |ms|
    ensures forall i :: 0 <= i < |ms| ==> r[i] == if ms[i].text == ThinkingText then ms[i].(text := text) else ms[i]
  {
    if ms == [] then []
    else [if ms[0].text == ThinkingText then ms[0].(text := text) else ms[0]] + ReplaceThinking(ms[1..], text)
  }

  function UserMessage(id: string, text: string): Message
  {
    Message(id, User, text, map[])
  }

  function Placeholder(id: string): Message
  {
    Message(id, Agent, ThinkingText, map[])
  }

  /**
   * The message list a valid send leaves behind: the user message and the
   * placeholder are appended, then the placeholder is replaced by id on
   * success, or every "Thinking..." message is replaced by the error text.
   */
  function SendEffect(ms: seq<Message>, trimmed: string, userId: string, loadingId: string,
                      outcome: Result<string, Thrown>): (r: seq<Message>)
    ensures |r| == |ms| + 2
    ensures forall i :: 0 <= i < |ms| ==>
              r[i].id == ms[i].id && r[i].role == ms[i].role && r[i].translations == ms[i].translations
    ensures r[|ms|].id == userId && r[|ms|].role == User
    ensures r[|ms| + 1].id == loadingId && r[|ms| + 1].role == Agent
    ensures outcome.Ok? ==> r[|ms| + 1].text == outcome.value
    ensures outcome.Err? ==> r[|ms| + 1].text == IssuePrefix + ErrorMessage(outcome.error)
  {
    var pending := ms + [UserMessage(userId, trimmed), Placeholder(loadingId)];
    match outcome
    case Ok(reply) => ReplaceTextById(pending, loadingId, reply)
    case Err(e) => ReplaceThinking(pending, IssuePrefix + ErrorMessage(e))
  }

  /**
   * On success the list grows by exactly the user message and the agent
   * reply, which takes the placeholder's identifier; nothing else changes.
   */
  lemma SuccessReplacesOnlyPlaceholder(ms: seq<Message>, trimmed: string, userId: string, loadingId: string,
                                       reply: string)
    requires FreshId(ms, loadingId) && userId != loadingId
    ensures SendEffect(ms, trimmed, userId, loadingId, Ok(reply))
            == ms + [UserMessage(userId, trimmed), Message(loadingId, Agent, reply, map[])]
  {
    var pending := ms + [UserMessage(userId, trimmed), Placeholder(loadingId)];
    var r := ReplaceTextById(pending, loadingId, reply);
    var want := ms + [UserMessage(userId, trimmed), Message(loadingId, Agent, reply, map[])];
    forall i | 0 <= i < |r| ensures r[i] == want[i] {
      if i < |ms| {
        assert pending[i] == ms[i];
      }
    }
  }

  /**
   * On failure the list also grows by two, the placeholder shows the error,
   * and every other message keeps its identifier, role and translations;
   * its text changes exactly when it was "Thinking...".
   */
  lemma FailureReplacesEveryThinking(ms: seq<Message>, trimmed: string, userId: string, loadingId: string,
                                     e: Thrown)
    ensures var r := SendEffect(ms, trimmed, userId, loadingId, Err(e));
            var shown := IssuePrefix + ErrorMessage(e);
            && |r| == |ms| + 2
            && r[|ms| + 1] == Message(loadingId, Agent, shown, map[])
            && r[|ms|] == UserMessage(userId, if trimmed == ThinkingText then shown else trimmed)
            && forall i :: 0 <= i < |ms| ==>
                 r[i] == if ms[i].text == ThinkingText then ms[i].(text := shown) else ms[i]
  {
    var pending := ms + [UserMessage(userId, trimmed), Placeholder(loadingId)];
    assert pending[|ms|] == UserMessage(userId, trimmed);
    assert pending[|ms| + 1] == Placeholder(loadingId);
    assert forall i :: 0 <= i < |ms| ==> pending[i] == ms[i];
  }

  /**
   * The error path matches by text, the success path by identifier: a user
   * who sends "Thinking..." and gets an error loses their own message text.
   */
  lemma FailureOverwritesUserThinking(ms: seq<Message>, userId: string, loadingId: string, e: Thrown)
    ensures SendEffect(ms, ThinkingText, userId, loadingId, Err(e))[|ms|].text != ThinkingText
    ensures SendEffect(ms, ThinkingText, userId, loadingId, Ok(ThinkingText))[|ms|].text == ThinkingText
  {
    FailureReplacesEveryThinking(ms, ThinkingText, userId, loadingId, e);
    var pending := ms + [UserMessage(userId, ThinkingText), Placeholder(loadingId)];
    assert pending[|ms|] == UserMessage(userId, ThinkingText);
    assert IssuePrefix + ErrorMessage(e) != ThinkingText by {
      assert (IssuePrefix + ErrorMessage(e))[0] == 'S';
    }
  }

  /**
   * An earlier agent reply that happens to read "Thinking..." is rewritten by
   * a later failed send, though that send never touched it on success.
   */
  lemma FailureOverwritesEarlierReply(ms: seq<Message>, j: nat, trimmed: string, userId: string,
                                      loadingId: string, reply: string, e: Thrown)
    requires j < |ms| && ms[j].text == ThinkingText && ms[j].id != loadingId
    ensures SendEffect(ms, trimmed, userId, loadingId, Ok(reply))[j] == ms[j]
    ensures SendEffect(ms, trimmed, userId, loadingId, Err(e))[j].text == IssuePrefix + ErrorMessage(e)
  {
    var pending := ms + [UserMessage(userId, trimmed), Placeholder(loadingId)];
    assert pending[j] == ms[j];
  }

  /** Fresh identifiers keep every identifier in the list unique across a send. */
  lemma SendKeepsIdsDistinct(ms: seq<Message>, trimmed: string, userId: string, loadingId: string,
                             outcome: Result<string, Thrown>)
    requires DistinctIds(ms) && FreshId(ms, userId) && FreshId(ms, loadingId) && userId != loadingId
    ensures DistinctIds(SendEffect(ms, trimmed, userId, loadingId, outcome))
  {
    var pending := ms + [UserMessage(userId, trimmed), Placeholder(loadingId)];
    assert DistinctIds(pending);
  }

  /** The controller state: the message list and whether a send is in progress. */
  class ChatController {
    var messages: seq<Message>
    var isSending: bool

    /** Identifiers in the list are unique (they come from `crypto.randomUUID`). */
    ghost predicate Valid()
      reads this
    {
      DistinctIds(messages)
    }

    constructor ()
      ensures Valid() && messages == [] && !isSending
    {
      messages := [];
      isSending := false;
    }

    /** `appendMessage`: adds one message at the end. */
    method AppendMessage(m: Message)
      modifies this
      ensures messages == old(messages) + [m] && isSending == old(isSending)
    {
      messages := messages + [m];
    }

    /**
     * `sendMessage(category, input)`. `userId` and `loadingId` are the two
     * fresh identifiers, `attempts` what the network gives to each fetch
     * call. Returns the request body posted, or `None` when the guard
     * rejects the input.
     */
    method SendMessage(category: Option<CategoryKey>, input: string, userId: string, loadingId: string,
                       attempts: seq<Attempt>)
      returns (posted: Option<WebhookRequest>)
      requires Valid()
      requires RetryAttempts < |attempts|
      requires userId != loadingId && FreshId(messages, userId) && FreshId(messages, loadingId)
      modifies this
      ensures Valid()
      ensures Trim(input) == "" || category.None? ==>
                posted == None && messages == old(messages) && isSending == old(isSending)
      ensures Trim(input) != "" && category.Some? ==>
                && posted == Some(WebhookRequest(Constants.WebhookLabel(category.value), Trim(input)))
                && messages == SendEffect(old(messages), Trim(input), userId, loadingId, Request(attempts))
                && !isSending
    {
      var trimmed := Trim(input);
      if trimmed == "" || category.None? {
        return None;
      }
      ghost var before := messages;
      AppendMessage(UserMessage(userId, trimmed));
      isSending := true;
      AppendMessage(Placeholder(loadingId));
      ghost var pending := before + [UserMessage(userId, trimmed), Placeholder(loadingId)];
      assert messages == pending;
      posted := Some(WebhookRequest(Constants.WebhookLabel(category.value), trimmed));
      var outcome := Request(attempts);
      SendKeepsIdsDistinct(before, trimmed, userId, loadingId, outcome);
      match outcome {
        case Ok(reply) =>
          messages := ReplaceTextById(messages, loadingId, reply);
        case Err(e) =>
          messages := ReplaceThinking(messages, IssuePrefix + ErrorMessage(e));
      }
      isSending := false;
    }

    /** `clearMessages`: empties the list. */
    method ClearMessages()
      modifies this
      ensures Valid() && messages == [] && isSending == old(isSending)
    {
      messages := [];
    }
  }
}
