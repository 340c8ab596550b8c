/**
 * The older single-file client: its own send pipeline (no placeholder, no
 * retry), submit guards, REST translation with an API key, translation
 * effect writing into the message list, language and category changes,
 * read-aloud controls and the conversation reset.
 */
module LegacyApp {
  import opened Base
  import opened Types
  import opened JsText
  import Constants
  import Chat
  import Translation
  import Speech

  /** The fallback message for a non-ok response without a usable `error` member. */
  const FailedFetchText: string := "Failed to fetch agent response."

  /** The same-origin path that the development server proxies to the agent. */
  const DevProxyPath: string := "/api/chat"

  /** `getWebhookUrl`: the proxy path in development or on a local host, else the production endpoint. */
  function AppWebhookUrl(isDev: bool, hostname: Option<string>): (url: string)
    ensures url == DevProxyPath <==> isDev || hostname == Some("localhost") || hostname == Some("127.0.0.1")
    ensures url == DevProxyPath || url == Constants.DefaultWebhookUrl
  {
    if isDev then DevProxyPath
    else if hostname == Some("localhost") || hostname == Some("127.0.0.1") then DevProxyPath
    else Constants.DefaultWebhookUrl
  }

  /** JavaScript truthiness of a JSON value. */
  predicate Truthy(j: Chat.Json)
  {
    match j
    case JStr(s) => s != ""
    case JObj(_, _) => true
    case JOther(_, truthy) => truthy
  }

  /** The reply text: a string `output` member first, then a bare string, else the placeholder. */
  function AgentText(data: Chat.Json): (text: string)
    ensures data.JObj? && data.output.Some? && data.output.value.JStr? ==> text == data.output.value.s
    ensures data.JStr? ==> text == data.s
    ensures !data.JStr? && !(data.JObj? && data.output.Some? && data.output.value.JStr?) ==>
              text == Chat.NoResponseText
  {
    if data.JObj? && data.output.Some? && data.output.value.JStr? then data.output.value.s
    else if data.JStr? then data.s
    else Chat.NoResponseText
  }

  /** Testing `output` before or after the bare string gives the same reply: a string has no members. */
  lemma AgentTextAgreesWithHook(data: Chat.Json)
    ensures AgentText(data) == Chat.ExtractAgentText(data)
  {
  }

  /** The message thrown for a non-ok response: a truthy `error` member, else the generic text. */
  function ServerErrorText(data: Chat.Json): (text: string)
    ensures data.JObj? && data.error.Some? && Truthy(data.error.value) ==> text == Chat.JsString(data.error.value)
    ensures !(data.JObj? && data.error.Some? && Truthy(data.error.value)) ==> text == FailedFetchText
  {
    if data.JObj? && data.error.Some? && Truthy(data.error.value) then Chat.JsString(data.error.value)
    else FailedFetchText
  }

  /** `error instanceof Error ? error.message : 'Unexpected error occurred.'` */
  function ErrorMessage(e: Chat.Thrown): (text: string)
    ensures e.AbortError? ==> text == e.abortMessage
    ensures e.Failure? ==> text == e.message
    ensures e.NonError? ==> text == Chat.UnexpectedText
  {
    match e
    case AbortError(m) => m
    case Failure(m) => m
    case NonError => Chat.UnexpectedText
  }

  /** The one `fetch` call and its handling: the reply text or what was thrown. */
  function Request(attempt: Chat.Attempt): (r: Result<string, Chat.Thrown>)
    ensures r.Ok? ==> attempt.Responded? && Chat.IsOk(attempt.response)
    ensures r.Err? && !r.error.Failure? ==> attempt == Chat.Rejected(r.error)
    ensures attempt.Rejected? ==> r == Err(attempt.thrown)
    ensures attempt.Responded? && Chat.ParseResponse(attempt.response).Err? ==>
              r == Err(Chat.ParseResponse(attempt.response).error)
    ensures attempt.Responded? && Chat.ParseResponse(attempt.response).Ok? ==>
              r == if Chat.IsOk(attempt.response) then Ok(AgentText(Chat.ParseResponse(attempt.response).value))
                   else Err(Chat.Failure(ServerErrorText(Chat.ParseResponse(attempt.response).value)))
  {
    match attempt
    case Rejected(e) => Err(e)
    case Responded(resp) =>
      match Chat.ParseResponse(resp)
      case Err(e) => Err(e)
      case Ok(data) =>
        if !Chat.IsOk(resp) then Err(Chat.Failure(ServerErrorText(data)))
        else Ok(AgentText(data))
  }

  /** The text of the agent message appended after the request settles. */
  function ReplyText(attempt: Chat.Attempt): (text: string)
    ensures Request(attempt).Ok? ==> text == Request(attempt).value
    ensures Request(attempt).Err? ==> text == Chat.IssuePrefix + ErrorMessage(Request(attempt).error)
  {
    match Request(attempt)
    case Ok(t) => t
    case Err(e) => Chat.IssuePrefix + ErrorMessage(e)
  }

  /** A non-ok JSON response `{"error": m}` with a non-empty `m` shows the apology followed by `m`. */
  lemma ErrorFieldIsShown(resp: Chat.HttpResponse, m: string)
    requires !Chat.IsOk(resp) && resp.parsed.Valid? && Chat.IsJsonType(resp.contentType)
    requires resp.parsed.json.JObj? && resp.parsed.json.error == Some(Chat.JStr(m)) && m != ""
    ensures ReplyText(Chat.Responded(resp)) == Chat.IssuePrefix + m
  {
  }

  /** A non-ok response with an empty `error` member falls back to the generic text. */
  lemma EmptyErrorFieldIsGeneric(resp: Chat.HttpResponse)
    requires !Chat.IsOk(resp) && resp.parsed.Valid? && Chat.IsJsonType(resp.contentType)
    requires resp.parsed.json.JObj? && resp.parsed.json.error == Some(Chat.JStr(""))
    ensures ReplyText(Chat.Responded(resp)) == Chat.IssuePrefix + FailedFetchText
  {
  }

  /**
   * `translateText` of this client: blank text, a missing or empty API key
   * and the default language return the text unchanged; otherwise the
   * service's `translatedText` when it is a string, else the text.
   */
  function TranslateViaRest(text: string, target: string, apiKey: Option<string>,
                            service: Translation.Translator): (r: string)
    ensures apiKey.None? || apiKey == Some("") ==> r == text
    ensures r == text || service(text, target) == Translation.Translated(r)
  {
    if Trim(text) == "" then text
    else if apiKey.None? || apiKey == Some("") || target == Translation.DefaultLanguage then text
    else match service(text, target)
      case Translated(t) => t
      case _ => text
  }

  /** With an API key configured the two clients translate alike. */
  lemma RestAgreesWithHookWhenKeyed(text: string, target: string, key: string, service: Translation.Translator)
    requires key != ""
    ensures TranslateViaRest(text, target, Some(key), service) == Translation.TranslateText(text, target, service)
  {
  }

  /** The application state. Read-aloud state (`activeSpeechId`, the utterance) is kept in `player`. */
  class App {
    var selectedCategory: Option<CategoryKey>
    var messages: seq<Message>
    var inputValue: string
    var isSending: bool
    var selectedLanguage: string
    var isTranslating: bool
    const apiKey: Option<string>
    const player: Speech.SpeechPlayer

    ghost predicate Valid()
      reads this, player, player.engine
    {
      player.Valid()
    }

    constructor (apiKey: Option<string>, player: Speech.SpeechPlayer)
      requires player.Valid() && player.activeSpeechId == None
      ensures Valid() && this.apiKey == apiKey && this.player == player
      ensures selectedCategory == None && messages == [] && inputValue == "" && !isSending
      ensures selectedLanguage == Translation.DefaultLanguage && !isTranslating
    {
      selectedCategory := None;
      messages := [];
      inputValue := "";
      isSending := false;
      selectedLanguage := Translation.DefaultLanguage;
      isTranslating := false;
      this.apiKey := apiKey;
      this.player := player;
    }

    /** `handleCategorySelect`: picks the category and empties the conversation. */
    method HandleCategorySelect(category: CategoryKey)
      modifies this
      ensures selectedCategory == Some(category) && messages == []
      ensures inputValue == old(inputValue) && isSending == old(isSending)
      ensures selectedLanguage == old(selectedLanguage) && isTranslating == old(isTranslating)
    {
      selectedCategory := Some(category);
      messages := [];
    }

    /** `handleInputChange`. */
    method HandleInputChange(value: string)
      modifies this
      ensures inputValue == value && messages == old(messages) && selectedCategory == old(selectedCategory)
      ensures isSending == old(isSending)
      ensures selectedLanguage == old(selectedLanguage) && isTranslating == old(isTranslating)
    {
      inputValue := value;
    }

    /** `appendMessage`: adds one message at the end; nothing else changes. */
    method AppendMessage(m: Message)
      modifies this
      ensures messages == old(messages) + [m]
      ensures selectedCategory == old(selectedCategory) && inputValue == old(inputValue)
      ensures isSending == old(isSending) && selectedLanguage == old(selectedLanguage)
      ensures isTranslating == old(isTranslating)
    {
      messages := messages + [m];
    }

    /**
     * The `try`/`catch`/`finally` of `sendMessage`: exactly one agent message,
     * the reply or the apology, is appended, and sending ends.
     */
    method ReceiveReply(agentId: string, attempt: Chat.Attempt)
      modifies this
      ensures messages == old(messages) + [Message(agentId, Agent, ReplyText(attempt), map[])]
      ensures !isSending
      ensures selectedCategory == old(selectedCategory) && inputValue == old(inputValue)
      ensures selectedLanguage == old(selectedLanguage) && isTranslating == old(isTranslating)
    {
      AppendMessage(Message(agentId, Agent, ReplyText(attempt), map[]));
      isSending := false;
    }

    /**
     * `sendMessage`: ignores blank input or a missing category; otherwise
     * appends the user message, clears the input, posts the category key
     * with the trimmed text and appends exactly one agent message, the reply
     * or the error text.
     */
    method SendMessage(userId: string, agentId: string, attempt: Chat.Attempt)
      returns (posted: Option<Chat.WebhookRequest>)
      modifies this
      ensures selectedCategory == old(selectedCategory) && selectedLanguage == old(selectedLanguage)
      ensures isTranslating == old(isTranslating)
      ensures Trim(old(inputValue)) == "" || old(selectedCategory).None? ==>
                && posted == None && messages == old(messages)
                && inputValue == old(inputValue) && isSending == old(isSending)
      ensures Trim(old(inputValue)) != "" && old(selectedCategory).Some? ==>
                && posted == Some(Chat.WebhookRequest(KeyName(old(selectedCategory).value), Trim(old(inputValue))))
                && messages == old(messages) + [Chat.UserMessage(userId, Trim(old(inputValue))),
                                               Message(agentId, Agent, ReplyText(attempt), map[])]
                && inputValue == "" && !isSending
    {
      var trimmed := Trim(inputValue);
      if trimmed == "" || selectedCategory.None? {
        return None;
      }
      ghost var before := messages;
      AppendMessage(Chat.UserMessage(userId, trimmed));
      inputValue := "";
      isSending := true;
      posted := Some(Chat.WebhookRequest(KeyName(selectedCategory.value), trimmed));
      ReceiveReply(agentId, attempt);
      assert messages == before + [Chat.UserMessage(userId, trimmed), Message(agentId, Agent, ReplyText(attempt), map[])];
    }

    /** `handleSubmit`: sends only while no send is in progress. */
    method HandleSubmit(userId: string, agentId: string, attempt: Chat.Attempt) returns (sent: bool)
      modifies this
      ensures sent == !old(isSending)
      ensures !sent ==> messages == old(messages) && inputValue == old(inputValue) && isSending
      ensures selectedCategory == old(selectedCategory) && selectedLanguage == old(selectedLanguage)
      ensures isTranslating == old(isTranslating)
      ensures sent && (Trim(old(inputValue)) == "" || old(selectedCategory).None?) ==>
                messages == old(messages) && inputValue == old(inputValue) && isSending == old(isSending)
      ensures sent && Trim(old(inputValue)) != "" && old(selectedCategory).Some? ==>
                && messages == old(messages) + [Chat.UserMessage(userId, Trim(old(inputValue))),
                                               Message(agentId, Agent, ReplyText(attempt), map[])]
                && inputValue == "" && !isSending
    {
      sent := !isSending;
      if sent {
        var _ := SendMessage(userId, agentId, attempt);
      }
    }

    /** `handleKeyDown`: Enter without Shift submits, under the same guard. */
    method HandleKeyDown(key: string, shiftKey: bool, userId: string, agentId: string, attempt: Chat.Attempt)
      returns (sent: bool)
      modifies this
      ensures sent <==> key == "Enter" && !shiftKey && !old(isSending)
      ensures !sent ==> messages == old(messages) && inputValue == old(inputValue) && isSending == old(isSending)
      ensures selectedCategory == old(selectedCategory) && selectedLanguage == old(selectedLanguage)
      ensures isTranslating == old(isTranslating)
      ensures sent && (Trim(old(inputValue)) == "" || old(selectedCategory).None?) ==>
                messages == old(messages) && inputValue == old(inputValue) && isSending == old(isSending)
      ensures sent && Trim(old(inputValue)) != "" && old(selectedCategory).Some? ==>
                && messages == old(messages) + [Chat.UserMessage(userId, Trim(old(inputValue))),
                                               Message(agentId, Agent, ReplyText(attempt), map[])]
                && inputValue == "" && !isSending
    {
      sent := false;
      if key == "Enter" && !shiftKey {
        if !isSending {
          sent := true;
          var _ := SendMessage(userId, agentId, attempt);
        }
      }
    }

    /** The translation effect: starts a batch over the messages lacking a translation into the selected language. */
    method TranslationEffect() returns (batch: Option<Translation.Batch>)
      modifies this
      ensures messages == old(messages) && selectedLanguage == old(selectedLanguage)
      ensures selectedCategory == old(selectedCategory) && inputValue == old(inputValue)
      ensures isSending == old(isSending)
      ensures selectedLanguage == Translation.DefaultLanguage
              || Translation.Untranslated(messages, selectedLanguage) == [] ==>
                batch == None && isTranslating == old(isTranslating)
      ensures selectedLanguage != Translation.DefaultLanguage
              && Translation.Untranslated(messages, selectedLanguage) != [] ==>
                && batch.Some? && fresh(batch.value) && !batch.value.cancelled && isTranslating
                && batch.value.lang == selectedLanguage
                && batch.value.pending == Translation.Untranslated(messages, selectedLanguage)
    {
      if selectedLanguage == Translation.DefaultLanguage {
        return None;
      }
      var untranslated := Translation.Untranslated(messages, selectedLanguage);
      if |untranslated| == 0 {
        return None;
      }
      var b := new Translation.Batch(selectedLanguage, untranslated);
      isTranslating := true;
      batch := Some(b);
    }

    /** The batch settles: unless cancelled, its translations are merged into the message list. */
    method FinishTranslation(batch: Translation.Batch, service: Translation.Translator)
      modifies this
      ensures selectedLanguage == old(selectedLanguage) && selectedCategory == old(selectedCategory)
      ensures inputValue == old(inputValue) && isSending == old(isSending)
      ensures batch.cancelled ==> messages == old(messages) && isTranslating == old(isTranslating)
      ensures !batch.cancelled ==>
                && !isTranslating
                && messages == Translation.Merge(old(messages),
                     Translation.TranslateAll(batch.pending, t => TranslateViaRest(t, batch.lang, apiKey, service)),
                     batch.lang)
    {
      var updates := Translation.TranslateAll(batch.pending, t => TranslateViaRest(t, batch.lang, apiKey, service));
      if batch.cancelled {
        return;
      }
      messages := Translation.Merge(messages, updates, batch.lang);
      isTranslating := false;
    }

    /** `handleLanguageChange`: switching to the default language also clears the translating flag. */
    method HandleLanguageChange(language: string)
      modifies this
      ensures selectedLanguage == language && messages == old(messages)
      ensures selectedCategory == old(selectedCategory) && inputValue == old(inputValue)
      ensures isSending == old(isSending)
      ensures isTranslating == (old(isTranslating) && language != Translation.DefaultLanguage)
    {
      selectedLanguage := language;
      if language == Translation.DefaultLanguage {
        isTranslating := false;
      }
    }

    /** `getDisplayText` under the selected language. */
    function DisplayText(m: Message): (text: string)
      reads this
      ensures text == Translation.GetDisplayText(selectedLanguage, m)
    {
      Translation.GetDisplayText(selectedLanguage, m)
    }

    /** `handlePlayMessage`: reads the message's display text in the selected language's voice. */
    method HandlePlayMessage(m: Message)
      requires Valid()
      modifies player, player.engine
      ensures Valid()
      ensures player.supported && !old(player.ResumesFor(m.id)) && Trim(DisplayText(m)) != "" ==>
                && player.activeSpeechId == Some(m.id)
                && player.utterance == Some(Speech.Utterance(DisplayText(m), Speech.VoiceLocale(selectedLanguage)))
                && player.engine.queue == [Speech.Utterance(DisplayText(m), Speech.VoiceLocale(selectedLanguage))]
                && player.engine.paused == old(player.engine.paused)
      ensures player.supported && old(player.ResumesFor(m.id)) ==>
                !player.engine.paused && player.engine.queue == old(player.engine.queue)
                && player.activeSpeechId == old(player.activeSpeechId) && player.utterance == old(player.utterance)
      ensures !player.supported || (!old(player.ResumesFor(m.id)) && Trim(DisplayText(m)) == "") ==>
                && player.activeSpeechId == old(player.activeSpeechId) && player.utterance == old(player.utterance)
                && player.engine.queue == old(player.engine.queue) && player.engine.paused == old(player.engine.paused)
    {
      player.HandlePlayMessage(m, DisplayText(m), selectedLanguage);
    }

    /** `handlePause`. */
    method HandlePause()
      requires Valid()
      modifies player.engine
      ensures Valid() && player.engine.queue == old(player.engine.queue)
      ensures player.engine.paused == (old(player.engine.paused) || (player.supported && old(player.engine.Speaking())))
    {
      player.HandlePause();
    }

    /** `resetConversation`: back to category selection with an empty, idle conversation and speech cancelled. */
    method ResetConversation()
      requires Valid()
      modifies this, player, player.engine
      ensures Valid()
      ensures selectedCategory == None && messages == [] && inputValue == "" && !isSending
      ensures player.activeSpeechId == None && player.utterance == old(player.utterance)
      ensures player.supported ==> player.engine.queue == []
      ensures !player.supported ==> player.engine.queue == old(player.engine.queue)
      ensures player.engine.paused == old(player.engine.paused)
      ensures selectedLanguage == old(selectedLanguage) && isTranslating == old(isTranslating)
    {
      selectedCategory := None;
      messages := [];
      inputValue := "";
      isSending := false;
      player.activeSpeechId := None;
      player.Cleanup();
    }
  }

  /**
   * Switching to the default language and back does not request the cached
   * translations again, once a batch has stored non-empty translations for
   * every message.
   */
  method SwitchBackUsesCache(app: App, lang: string, service: Translation.Translator)
    returns (again: Option<Translation.Batch>)
    requires app.selectedLanguage == lang && lang != Translation.DefaultLanguage
    requires forall i :: 0 <= i < |Translation.Untranslated(app.messages, lang)| ==>
               TranslateViaRest(Translation.Untranslated(app.messages, lang)[i].text, lang, app.apiKey, service) != ""
    modifies app
    ensures again == None && app.selectedLanguage == lang
  {
    var batch := app.TranslationEffect();
    if batch.Some? {
      ghost var before := app.messages;
      app.FinishTranslation(batch.value, service);
      Translation.NoRetranslationAfterMerge(before, lang, t => TranslateViaRest(t, lang, app.apiKey, service));
      assert Translation.Untranslated(app.messages, lang) == [];
    }
    app.HandleLanguageChange(Translation.DefaultLanguage);
    app.HandleLanguageChange(lang);
    again := app.TranslationEffect();
  }

  /**
   * A translation batch cancelled because the conversation was cleared is
   * dropped when it settles, and nothing clears the translating flag.
   */
  method SupersededBatchKeepsFlag(app: App, category: CategoryKey, service: Translation.Translator)
    returns (batch: Option<Translation.Batch>)
    requires app.selectedLanguage != Translation.DefaultLanguage
    requires Translation.Untranslated(app.messages, app.selectedLanguage) != []
    modifies app
    ensures batch.Some? && batch.value.cancelled && app.isTranslating
  {
    batch := app.TranslationEffect();
    batch.value.Cancel();
    app.HandleCategorySelect(category);
    var none := app.TranslationEffect();
    app.FinishTranslation(batch.value, service);
  }
}
