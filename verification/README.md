# Multi-model chat client — a Dafny model

This project models the logic of a browser chat client. The user picks a
category (Share Market, Astrology or Wellness) and types a message. The
client posts the category and the trimmed text to an n8n webhook and shows
the agent's reply. Messages can be translated into one of six Indian or
English languages and read aloud with the browser's speech synthesis. Agent
replies appear with a typewriter animation.

The repository holds two versions of this logic, and both are modelled:

- **The hook-based client** (`src/hooks/*`, `src/constants/index.ts`):
  - `useChat` posts through `fetchWithTimeout`, which retries network
    failures twice.
  - It shows a "Thinking..." placeholder while the request is pending.
  - It replaces the placeholder by id on success, and by its text on
    failure.
  - `useTranslation` translates pending messages in a batch that a newer
    run can cancel.
  - `useSpeech` drives speech synthesis.
  - `useTypewriter` animates a reply one character at a time.
- **The self-contained `App` component** (`src/App.tsx`):
  - It makes one `fetch` with no retry and no placeholder.
  - It translates through the Google REST endpoint, and only when an API
    key is configured.
  - It posts the raw category key, for example `astrology`. `useChat`
    posts the webhook label, for example `Astrology`.

Modules:

- `Base`: `Option` and `Result`.
- `JsText`: JavaScript's `trim`, `includes` and decimal rendering, on
  `seq<char>`.
- `Types`: messages, categories, languages.
- `Constants`: the webhook URL, the category and language tables,
  `getCategoryForWebhook`.
- `Chat` (`useChat`):
  - pure functions for retry, parsing, extraction and error text, and the
    message-list updates;
  - the class `ChatController` for the hook's state.
- `Translation` (`useTranslation`):
  - pure filter and merge functions;
  - the classes `Batch` (one pending `translatePending` run and its
    `cancelled` flag) and `TranslationHook`.
- `Speech` (`useSpeech`):
  - `SpeechEngine` is an abstract `window.speechSynthesis`. It holds a
    queue of utterances and a `paused` flag, and it is speaking exactly
    while the queue is non-empty.
  - `SpeechPlayer` is the hook's state.
- `Typewriter` (`useTypewriter`): the class `TypingEffect`. `Animate` is
  the interval loop, written as a `while` loop.
- `LegacyApp` (`App.tsx`): its own request, error and translation
  functions, and the class `App` for the component's state.

How the outside world is represented:

- The network is a sequence of `Attempt`s, one per `fetch` call. An attempt
  is either a response (status, content type, body text and the result of
  parsing the body) or a thrown value (an `AbortError`, an `Error` with a
  message, or a non-`Error` value).
- A translation service is a function parameter. It returns a string,
  returns a non-string, or throws.
- Message identifiers (`crypto.randomUUID`) are parameters.

Where the code and its description differ, the model follows the code:

- **Empty text before cancel.** `handlePlayMessage` returns on blank text
  *before* it cancels the current utterance (`src/hooks/useSpeech.ts:32-38`),
  so a blank message never interrupts speech.
- **Two replacement rules in `useChat`.** On success it replaces the
  placeholder by id (`src/hooks/useChat.ts:157-166`). On failure it
  rewrites every message whose text is exactly `Thinking...`
  (`src/hooks/useChat.ts:178-187`). That includes a user message with that
  text, and an earlier reply that said exactly that. The lemmas
  `Chat.FailureOverwritesUserThinking` and
  `Chat.FailureOverwritesEarlierReply` state these consequences.
- **Empty translations.** An empty translation `""` counts as untranslated
  (`!message.translations[lang]`) but is still displayed (`??` only falls
  back on a missing key). An empty message text is never sent to the
  translator and comes back unchanged as `""`, so it is re-requested on
  every run (`Translation.EmptyTranslationIsShownYetPending`,
  `Translation.EmptyTextStaysPending`).
- **The hook's cache is never consulted.** `useTranslation` filters the
  `messages` it is given (`src/hooks/useTranslation.ts:50-52`) but merges
  the translations into its own `translatedMessages` (`:74-88`), and it
  resets that list when the language is English (`:44-46`). So switching
  to English and back requests the same messages again
  (`Translation.SwitchBackRequestsAgain`). Only `App` filters the list it
  merged into (`src/App.tsx:228-263`), so only there does a completed batch
  stop further requests (`Translation.NoRetranslationAfterMerge`,
  `LegacyApp.SwitchBackUsesCache`).
- **A superseded batch leaves the flag set.** A cancelled batch returns
  without touching `isTranslating`. If the run that superseded it found
  nothing to translate, that run never touched the flag either, so it
  stays `true` (`src/hooks/useTranslation.ts:54-60, 70-72`,
  `src/App.tsx:230-235, 245-247`; `Translation.SupersededBatchKeepsFlag`,
  `LegacyApp.SupersededBatchKeepsFlag`).

## Model

| member | source | states |
|---|---|---|
| JsText.Trim | src/hooks/useChat.ts:102 | the `trim` result is no longer than the input and neither starts nor ends with white space |
| JsText.TrimKeepsSliceBetweenBlanks | src/hooks/useChat.ts:102 | the `trim` result is a slice of the input with only white space before and after it |
| JsText.TrimEmptyIffBlank | src/hooks/useChat.ts:102-105 | the guard `!trimmed` holds exactly when the input is all whitespace |
| JsText.TrimIdempotent | src/hooks/useChat.ts:102 | trimming a trimmed text changes nothing |
| JsText.IncludesIffOccurs | src/hooks/useChat.ts:64-69 | `includes` holds exactly when the substring occurs at some position |
| JsText.DecimalString | src/hooks/useChat.ts:150 | the rendering of a status is a non-empty digit string with no leading zero (except for 0) whose digits, read in base ten, spell the status |
| Constants.WebhookUrl | src/constants/index.ts:3-4 | a non-empty configured URL wins; otherwise the default n8n URL |
| Constants.WebhookLabel | src/constants/index.ts:36-43 | the label equals the key's own name for every key except astrology, whose label is "Astrology" |
| Constants.WebhookLabelInjective | src/constants/index.ts:36-43 | different categories are posted under different labels |
| Constants.CategoriesCoverKeys | src/constants/index.ts:6-25 | three categories with distinct keys, one for every key |
| Constants.LanguagesWellFormed | src/constants/index.ts:27-34 | exactly six languages with distinct codes, English first with voice en-US |
| Constants.FindLanguage | src/hooks/useSpeech.ts:15 | `find` yields nothing exactly when no entry has the code, else the first entry that has it |
| Chat.FetchWithTimeout | src/hooks/useChat.ts:21-57 | at most three calls; every call before the last threw a retryable error; a stop before the third is on a response or a non-retryable error; the outcome is the last call's |
| Chat.AbortIsNeverRetried | src/hooks/useChat.ts:47-53 | an `AbortError` ends the retries at once and is rethrown |
| Chat.LastErrorIsRethrown | src/hooks/useChat.ts:47-53 | when all three calls fail with retryable errors, exactly three calls are made and the third error is rethrown |
| Chat.FirstResponseWins | src/hooks/useChat.ts:36-42 | the first response (whatever its status) is returned without further calls |
| Chat.ParseResponse | src/hooks/useChat.ts:60-80 | JSON content parses or throws; text content parses or becomes `{output: text}`; anything else gives `{}` |
| Chat.ExtractAgentText | src/hooks/useChat.ts:83-98 | a string body, else a string `output` member, else "No response received." |
| Chat.ServerErrorText | src/hooks/useChat.ts:146-151 | the `error` member's string value when present, else "Server error: " and the status in decimal |
| Chat.JsString | src/hooks/useChat.ts:149-151 | `new Error(x).message` of a string is the string, of an object "[object Object]", of any other value its rendering |
| Chat.ErrorMessage | src/hooks/useChat.ts:168-173 | an abort reads as the timeout text, an `Error` as its message, anything else as the unexpected-error text |
| Chat.Request | src/hooks/useChat.ts:129-154 | a thrown `fetch` outcome is rethrown; a parse failure is rethrown; a parsed settled response gives its extracted text when ok and otherwise fails with its server error text; a reply implies an ok response |
| Chat.JsonOutputIsReply | src/hooks/useChat.ts:36-154 | an ok JSON response `{output: x}`, on any call after retryable failures, yields the reply `x` |
| Chat.ErrorFieldIsReported | src/hooks/useChat.ts:36-152 | a non-ok response with a string `error` member, on any call after retryable failures, fails with that message |
| Chat.StatusIsReportedWithoutErrorField | src/hooks/useChat.ts:36-151 | a non-ok response without `error`, on any call after retryable failures, fails with "Server error: <status>" |
| Chat.ReplaceTextById | src/hooks/useChat.ts:157-166 | same length; exactly the messages with the id get the new text, everything else is unchanged |
| Chat.ReplaceThinking | src/hooks/useChat.ts:178-187 | same length; exactly the messages whose text is "Thinking..." get the new text, everything else is unchanged |
| Chat.SendEffect | src/hooks/useChat.ts:107-187 | two messages are added: the user's and, under the placeholder's id, the agent's holding the reply or the apology with the error text; earlier messages keep their ids, roles and translations |
| Chat.SuccessReplacesOnlyPlaceholder | src/hooks/useChat.ts:107-166 | on success the list is the old list, the user message and an agent message with the placeholder's id holding the reply |
| Chat.FailureReplacesEveryThinking | src/hooks/useChat.ts:178-187 | on failure the placeholder and every earlier "Thinking..." message show the apology with the error text |
| Chat.FailureOverwritesUserThinking | src/hooks/useChat.ts:178-187 | a user who typed "Thinking..." sees their own message replaced by the apology when the request fails |
| Chat.FailureOverwritesEarlierReply | src/hooks/useChat.ts:178-187 | an earlier agent reply that read "Thinking..." is rewritten by a later failure |
| Chat.SendKeepsIdsDistinct | src/hooks/useChat.ts:107-127 | with fresh ids, the message list keeps distinct ids whatever the outcome |
| Chat.ChatController.constructor | src/hooks/useChat.ts:12-13 | empty list, not sending |
| Chat.ChatController.AppendMessage | src/hooks/useChat.ts:16-18 | appends exactly the message |
| Chat.ChatController.SendMessage | src/hooks/useChat.ts:100-194 | a blank input or no category changes nothing; otherwise posts the label and trimmed text, the list becomes the send effect of the request outcome, and sending ends |
| Chat.ChatController.ClearMessages | src/hooks/useChat.ts:196-199 | the list becomes empty |
| Translation.TranslateText | src/hooks/useTranslation.ts:10-41 | blank text or English is returned unchanged; a string from the service is the result; a throw or a non-string falls back to the text |
| Translation.Untranslated | src/hooks/useTranslation.ts:50-52 | keeps exactly the messages with no non-empty translation for the language; a single message is kept or dropped by that test |
| Translation.UntranslatedAppend | src/hooks/useTranslation.ts:50-52 | the filter distributes over concatenation, so it keeps the order and multiplicity of the list |
| Translation.TranslateAll | src/hooks/useTranslation.ts:63-68 | one update per pending message, same order, with its id and translated text |
| Translation.FindUpdate | src/hooks/useTranslation.ts:76 | nothing exactly when no update has the id, else the translation of an update with the id that no earlier update shares |
| Translation.MergeOne | src/hooks/useTranslation.ts:75-87 | id, role and text are kept; without an update the message is unchanged, with one its translation for the language is set |
| Translation.Merge | src/hooks/useTranslation.ts:74-88 | same ids, roles and texts; a message with an update gains that translation for the language; others are unchanged |
| Translation.MergeIsAdditive | src/hooks/useTranslation.ts:80-86 | merging keeps every translation for other languages and changes only the selected one |
| Translation.NoRetranslationAfterMerge | src/App.tsx:228-263 | after merging a batch whose results are all non-empty, no message is pending for that language |
| Translation.UntranslatedEmpty | src/hooks/useTranslation.ts:50-57 | nothing is pending exactly when every message has a non-empty translation |
| Translation.GetDisplayText | src/hooks/useTranslation.ts:100-105 | English shows the original; otherwise the stored translation, or the original when the key is missing |
| Translation.EmptyTranslationIsShownYetPending | src/hooks/useTranslation.ts:50-105 | an empty stored translation is displayed (as empty text) and is still counted as pending |
| Translation.EmptyTextStaysPending | src/hooks/useTranslation.ts:10-88 | a message with empty text translates to empty text and so stays pending after every batch |
| Translation.Batch.constructor | src/hooks/useTranslation.ts:59-68 | a new batch for a language and its pending messages, not cancelled |
| Translation.Batch.Cancel | src/hooks/useTranslation.ts:95-97 | the batch is marked cancelled |
| Translation.TranslationHook.constructor | src/hooks/useTranslation.ts:7-8 | not translating; the shown list is the initial messages |
| Translation.TranslationHook.RunEffect | src/hooks/useTranslation.ts:43-60 | English clears the flag and shows the messages; nothing pending shows the messages; otherwise starts a batch over exactly the pending messages and sets the flag |
| Translation.TranslationHook.FinishBatch | src/hooks/useTranslation.ts:62-91 | a cancelled batch changes nothing; otherwise the shown list is merged with the batch's translations and the flag is cleared |
| Translation.SwitchBackRequestsAgain | src/hooks/useTranslation.ts:43-88 | after a batch completes, switching to English and back starts a new batch over the same pending messages |
| Translation.SupersededBatchKeepsFlag | src/hooks/useTranslation.ts:54-72 | a cancelled batch followed by a run with nothing pending leaves the translating flag set |
| Speech.VoiceLocale | src/hooks/useSpeech.ts:14-17 | the table's voice for a known code, "en-US" otherwise |
| Speech.SpeechEngine.Speak | src/hooks/useSpeech.ts:53 | the utterance is queued |
| Speech.SpeechEngine.Cancel | src/hooks/useSpeech.ts:37 | the queue is emptied; the paused flag is kept |
| Speech.SpeechEngine.Pause | src/hooks/useSpeech.ts:65 | the engine is paused; the queue is kept |
| Speech.SpeechEngine.Resume | src/hooks/useSpeech.ts:28 | the engine is no longer paused; the queue is kept |
| Speech.SpeechEngine.Finish | src/hooks/useSpeech.ts:42-49 | the utterance at the head of the queue ends and leaves the queue |
| Speech.SpeechPlayer.constructor | src/hooks/useSpeech.ts:6-12 | no active message, no utterance |
| Speech.SpeechPlayer.HandlePlayMessage | src/hooks/useSpeech.ts:19-56 | unsupported or blank text changes nothing; the paused active message resumes; otherwise the engine holds exactly the new utterance in the voice of the language and the message becomes active |
| Speech.SpeechPlayer.HandlePause | src/hooks/useSpeech.ts:58-67 | pauses only while speaking and not yet paused; otherwise nothing changes |
| Speech.SpeechPlayer.Cleanup | src/hooks/useSpeech.ts:69-73 | cancels the engine when supported; the active id is left as it was |
| Speech.SpeechPlayer.UtteranceSettled | src/hooks/useSpeech.ts:42-49 | the end or error callback clears the active id and the utterance; the engine is untouched |
| Speech.SpeechPlayer.EngineFinishes | src/hooks/useSpeech.ts:42-45 | when the current utterance ends, the engine falls silent and the player forgets it |
| Typewriter.TypingEffect.constructor | src/hooks/useTypewriter.ts:11-24 | nothing shown yet; typing exactly when the text is non-empty |
| Typewriter.TypingEffect.Restart | src/hooks/useTypewriter.ts:15-24 | a new text resets the shown prefix to empty and types only a non-empty text |
| Typewriter.TypingEffect.Tick | src/hooks/useTypewriter.ts:28-37 | one more character is shown; typing stops exactly when the whole text is shown |
| Typewriter.TypingEffect.Animate | src/hooks/useTypewriter.ts:26-39 | the loop ends with the whole text shown, typing stopped, after one tick per remaining character |
| LegacyApp.AppWebhookUrl | src/App.tsx:23-36 | the dev proxy path in development or on localhost / 127.0.0.1, else the n8n URL |
| LegacyApp.AgentText | src/App.tsx:148-152 | a string `output` member, else a string body, else "No response received." |
| LegacyApp.AgentTextAgreesWithHook | src/App.tsx:148-152 | the component's extraction gives the same text as `extractAgentText` |
| LegacyApp.ServerErrorText | src/App.tsx:143-146 | a truthy `error` member is the message, else "Failed to fetch agent response." |
| LegacyApp.ErrorMessage | src/App.tsx:161 | an `Error` (abort included) reads as its message, anything else as the unexpected-error text |
| LegacyApp.Request | src/App.tsx:113-159 | a thrown `fetch` outcome is rethrown; a parse failure is rethrown; a parsed response gives its extracted text when ok and otherwise fails with its `error` member or the generic text; a reply implies an ok response |
| LegacyApp.ReplyText | src/App.tsx:141-167 | the reply on success, the apology with the error message on failure |
| LegacyApp.ErrorFieldIsShown | src/App.tsx:143-165 | a non-ok JSON response `{error: m}` with non-empty `m` shows the apology followed by `m` |
| LegacyApp.EmptyErrorFieldIsGeneric | src/App.tsx:143-146 | a non-ok response whose `error` is the empty string shows the generic failure text |
| LegacyApp.TranslateViaRest | src/App.tsx:189-221 | blank text, no key or English returns the text; a string translation is the result; anything else falls back |
| LegacyApp.RestAgreesWithHookWhenKeyed | src/App.tsx:189-221 | with a key, the REST translator behaves like the hook's `translateText` |
| LegacyApp.App.constructor | src/App.tsx:70-81 | no category, no messages, empty input, English, not sending or translating |
| LegacyApp.App.HandleCategorySelect | src/App.tsx:83-86 | selects the category and clears the conversation |
| LegacyApp.App.HandleInputChange | src/App.tsx:88-90 | the input takes the new value; every other field is unchanged |
| LegacyApp.App.AppendMessage | src/App.tsx:92-94 | adds exactly the message at the end; nothing else changes |
| LegacyApp.App.ReceiveReply | src/App.tsx:113-170 | exactly one agent message is appended, the reply or the apology, and sending ends |
| LegacyApp.App.SendMessage | src/App.tsx:96-171 | a blank input or no category changes nothing; otherwise posts the raw key and trimmed text, clears the input, appends the user message and exactly one agent message |
| LegacyApp.App.HandleSubmit | src/App.tsx:173-178 | sends only when no send is in progress; a send past the guard appends the user message and the reply or apology, clears the input and ends sending; a send stopped by the guard changes nothing |
| LegacyApp.App.HandleKeyDown | src/App.tsx:180-187 | Enter without Shift submits with the same guard and the same new state; any other key changes nothing |
| LegacyApp.App.TranslationEffect | src/App.tsx:223-235 | English or nothing pending starts nothing; otherwise a batch over exactly the pending messages and the flag is set; category, input and sending are unchanged |
| LegacyApp.App.FinishTranslation | src/App.tsx:237-266 | a cancelled batch changes nothing; otherwise the messages are merged with the translations and the flag cleared; input and sending are unchanged |
| LegacyApp.App.HandleLanguageChange | src/App.tsx:275-281 | selects the language; English clears the translating flag; category, input and sending are unchanged |
| LegacyApp.App.DisplayText | src/App.tsx:283-288 | English shows the original; otherwise the stored translation, or the original when missing |
| LegacyApp.App.HandlePlayMessage | src/App.tsx:295-330 | as the hook's player, with the text taken from the component's display text: the active id, the utterance, the queue and the paused flag are stated in the no-op, resume and play cases |
| LegacyApp.App.HandlePause | src/App.tsx:332-341 | pauses only while speaking and not paused |
| LegacyApp.App.ResetConversation | src/App.tsx:343-352 | clears category, messages and input, ends sending, forgets the active message and cancels speech when supported; the utterance, the paused flag and the translating flag are kept |
| LegacyApp.SwitchBackUsesCache | src/App.tsx:223-281 | once a batch whose translations are all non-empty completes, switching to English and back starts no new batch |
| LegacyApp.SupersededBatchKeepsFlag | src/App.tsx:228-266 | a batch cancelled because the conversation was cleared is dropped, and the translating flag stays set |

## Left out

- Timers are not modelled: the 60-second request timeout, the 500 ms retry
  delay and the typewriter's interval speed. A timeout appears only as an
  `AbortError` outcome of an attempt.
- `abortControllerRef` is not modelled. Neither is `clearMessages` aborting
  a request still in flight. The model runs each send to completion as one
  step, so an abort shows up only as an `AbortError` outcome.
- React's scheduling is not modelled: state updates, effect re-runs and
  `Promise.all` concurrency. Each effect run, each batch completion and
  each speech callback is a separate method call. A newer effect run
  cancelling an older batch is the explicit `Batch.Cancel`.
- `fetch`, `response.json`, `response.text` and `JSON.parse` are not
  modelled. Their outcomes are inputs, carried in `HttpResponse.parsed`. A
  JSON value is reduced to what the code reads: a string, an object's
  `output` and `error` members, or any other value with its rendering and
  truthiness.
- The Google translation SDK and REST endpoint are the `Translator`
  parameter. The project id and API key come from the environment and are
  parameters.
- `window.speechSynthesis` is reduced to a queue and a paused flag.
  Voices, rate, boundaries and audio are not modelled. `speechSynthesisSupported`
  is a constructor argument.
- Strings are sequences of Unicode characters. JavaScript counts UTF-16
  code units, so `text.length` and the typewriter's `substring` positions
  differ from the model for characters outside the Basic Multilingual
  Plane.
- Logging (`src/utils/logger.ts`, `console.error`) is not modelled.
  Neither are rendering and the scroll-to-bottom effect (`App.tsx:354-360`,
  the components), the configuration module and the build files.
- The `categories` and `languages` tables in `App.tsx` are identical
  copies of those in `src/constants/index.ts`. They are modelled once, in
  `Constants`.
- LegacyApp.App.SendMessage: does not require fresh identifiers and so
  does not state that ids stay distinct. The hook's `SendMessage` states
  this.
