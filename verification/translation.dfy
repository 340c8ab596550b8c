/**
 * The translation cache: which messages still need a translation into the
 * selected language, the best-effort call to an external translator, the
 * additive merge of a finished batch, the stale-batch flag and the text a
 * message is displayed with.
 */
module Translation {
  import opened Base
  import opened Types
  import opened JsText

  /** The language messages are written in; it is never translated into. */
  const DefaultLanguage: string := "en"

  /** What the external translator does with one request. */
  datatype ServiceReply = Threw | NotAString | Translated(text: string)

  /** The external translator, from text and target language code to its reply. */
  type Translator = (string, string) -> ServiceReply

  /**
   * `translateText` of the translation hook: blank text and the default
   * language are returned unchanged without calling the translator; a
   * translator that throws or answers with a non-string also gives back the
   * original text.
   */
  function TranslateText(text: string, target: string, service: Translator): (r: string)
    ensures Trim(text) == "" || target == DefaultLanguage ==> r == text
    ensures r == text || service(text, target) == Translated(r)
    ensures Trim(text) != "" && target != DefaultLanguage && service(text, target).Translated? ==>
              r == service(text, target).text
  {
    if Trim(text) == "" then text
    else if target == DefaultLanguage then text
    else match service(text, target)
      case Translated(t) => t
      case _ => text
  }

  /** `!message.translations[lang]`: the entry is missing or the (falsy) empty string. */
  predicate IsUntranslated(m: Message, lang: string)
  {
    lang !in m.translations || m.translations[lang] == ""
  }

  /** `messages.filter(...)`: the messages still lacking a translation into `lang`, in list order. */
  function Untranslated(ms: seq<Message>, lang: string): (r: seq<Message>)
    ensures |r| <= |ms|
    ensures forall i :: 0 <= i < |r| ==> r[i] in ms && IsUntranslated(r[i], lang)
    ensures forall i :: 0 <= i < |ms| && IsUntranslated(ms[i], lang) ==> ms[i] in r
    ensures |ms| == 1 ==> r == if IsUntranslated(ms[0], lang) then ms else []
  {
    if ms == [] then []
    else if IsUntranslated(ms[0], lang) then [ms[0]] + Untranslated(ms[1..], lang)
    else Untranslated(ms[1..], lang)
  }

  /**
   * The filter keeps list order and multiplicity: filtering a concatenation
   * concatenates the filtered parts (with the one-message case above, this
   * fixes the result completely).
   */
  lemma {:induction false} UntranslatedAppend(a: seq<Message>, b: seq<Message>, lang: string)
    ensures Untranslated(a + b, lang) == Untranslated(a, lang) + Untranslated(b, lang)
  {
    if a == [] {
      assert a + b == b;
    } else {
      assert (a + b)[0] == a[0];
      assert (a + b)[1..] == a[1..] + b;
      UntranslatedAppend(a[1..], b, lang);
    }
  }

  /** The result of translating one message of a batch. */
  datatype Update = Update(id: string, translated: string)

  /** `Promise.all(untranslated.map(...))`: one update per pending message, in order. */
  function TranslateAll(pending: seq<Message>, translate: string -> string): (r: seq<Update>)
    ensures |r| == |pending|
    ensures forall i :: 0 <= i < |pending| ==> r[i] == Update(pending[i].id, translate(pending[i].text))
  {
    if pending == [] then []
    else [Update(pending[0].id, translate(pending[0].text))] + TranslateAll(pending[1..], translate)
  }

  /** `updates.find(item => item.id === id)`: the first update for `id`. */
  function FindUpdate(updates: seq<Update>, id: string): (r: Option<string>)
    ensures r.None? <==> forall i :: 0 <= i < |updates| ==> updates[i].id != id
    ensures r.Some? ==> exists i :: 0 <= i < |updates| && updates[i] == Update(id, r.value)
                                    && forall j :: 0 <= j < i ==> updates[j].id != id
  {
    if updates == [] then None
    else if updates[0].id == id then Some(updates[0].translated)
    else FindUpdate(updates[1..], id)
  }

  /** The message `m` after merging the batch: `lang` is set when the batch has an update for it. */
  function MergeOne(m: Message, updates: seq<Update>, lang: string): (r: Message)
    ensures r.id == m.id && r.role == m.role && r.text == m.text
    ensures FindUpdate(updates, m.id).None? ==> r == m
    ensures FindUpdate(updates, m.id).Some? ==>
              r.translations == m.translations[lang := FindUpdate(updates, m.id).value]
  {
    match FindUpdate(updates, m.id)
    case None => m
    case Some(v) => m.(translations := m.translations[lang := v])
  }

  /** `prev.map(...)`: every message merged with the batch. */
  function Merge(prev: seq<Message>, updates: seq<Update>, lang: string): (r: seq<Message>)
    ensures |r| == |prev|
    ensures forall i :: 0 <= i < |prev| ==> r[i] == MergeOne(prev[i], updates, lang)
  {
    if prev == [] then []
    else [MergeOne(prev[0], updates, lang)] + Merge(prev[1..], updates, lang)
  }

  /**
   * The merge is additive and touches only key `lang`: length, order, ids,
   * roles and texts are kept, no key is removed, every other key keeps its
   * value, and a message without an update is unchanged.
   */
  lemma MergeIsAdditive(prev: seq<Message>, updates: seq<Update>, lang: string, i: nat)
    requires i < |prev|
    ensures var r := Merge(prev, updates, lang);
            && |r| == |prev|
            && r[i].id == prev[i].id && r[i].role == prev[i].role && r[i].text == prev[i].text
            && prev[i].translations.Keys <= r[i].translations.Keys <= prev[i].translations.Keys + {lang}
            && (forall k :: k in prev[i].translations && k != lang ==> r[i].translations[k] == prev[i].translations[k])
            && (FindUpdate(updates, prev[i].id).None? ==> r[i] == prev[i])
            && (FindUpdate(updates, prev[i].id).Some? ==>
                  r[i].translations[lang] == FindUpdate(updates, prev[i].id).value)
  {
  }

  /**
   * A completed batch whose translations are all non-empty leaves nothing
   * untranslated: the next run for the same language requests nothing.
   */
  lemma {:induction false} NoRetranslationAfterMerge(ms: seq<Message>, lang: string, translate: string -> string)
    requires forall i :: 0 <= i < |Untranslated(ms, lang)| ==> translate(Untranslated(ms, lang)[i].text) != ""
    ensures Untranslated(Merge(ms, TranslateAll(Untranslated(ms, lang), translate), lang), lang) == []
  {
    var pending := Untranslated(ms, lang);
    var updates := TranslateAll(pending, translate);
    var r := Merge(ms, updates, lang);
    forall j | 0 <= j < |updates| ensures updates[j].translated != "" {
      assert updates[j] == Update(pending[j].id, translate(pending[j].text));
    }
    forall i | 0 <= i < |r| ensures !IsUntranslated(r[i], lang) {
      var found := FindUpdate(updates, ms[i].id);
      assert r[i] == MergeOne(ms[i], updates, lang);
      if found.Some? {
        var j :| 0 <= j < |updates| && updates[j] == Update(ms[i].id, found.value);
        assert found.value == updates[j].translated != "";
      }
    }
    UntranslatedEmpty(r, lang);
  }

  /** The filter is empty exactly when every message has a non-empty translation. */
  lemma {:induction false} UntranslatedEmpty(ms: seq<Message>, lang: string)
    ensures Untranslated(ms, lang) == [] <==> forall i :: 0 <= i < |ms| ==> !IsUntranslated(ms[i], lang)
  {
    if ms != [] {
      UntranslatedEmpty(ms[1..], lang);
      assert forall i :: 1 <= i < |ms| ==> ms[i] == ms[1..][i - 1];
    }
  }

  /**
   * `getDisplayText`: the original text for the default language; else the
   * cached translation when the key is present (even when it is empty),
   * else the original text.
   */
  function GetDisplayText(lang: string, m: Message): (r: string)
    ensures r == m.text || (lang in m.translations && r == m.translations[lang])
    ensures lang == DefaultLanguage ==> r == m.text
    ensures lang != DefaultLanguage && lang in m.translations ==> r == m.translations[lang]
  {
    if lang == DefaultLanguage then m.text
    else if lang in m.translations then m.translations[lang]
    else m.text
  }

  /**
   * The two readings of an empty translation disagree: the filter treats it
   * as missing, while the display shows the empty string.
   */
  lemma EmptyTranslationIsShownYetPending(m: Message, lang: string)
    requires lang != DefaultLanguage && lang in m.translations && m.translations[lang] == ""
    ensures IsUntranslated(m, lang)
    ensures GetDisplayText(lang, m) == ""
  {
  }

  /**
   * A message whose text is empty translates to the empty string, so after
   * its batch is merged it is still pending and will be requested again.
   */
  lemma EmptyTextStaysPending(m: Message, lang: string, service: Translator)
    requires m.text == "" && lang != DefaultLanguage && IsUntranslated(m, lang)
    ensures var updates := TranslateAll(Untranslated([m], lang), t => TranslateText(t, lang, service));
            Untranslated(Merge([m], updates, lang), lang) == Merge([m], updates, lang)
  {
    var updates := TranslateAll(Untranslated([m], lang), t => TranslateText(t, lang, service));
    assert Untranslated([m], lang) == [m];
    assert updates == [Update(m.id, "")];
    var r := Merge([m], updates, lang);
    assert r[0].translations[lang] == "";
    assert Untranslated(r, lang) == [r[0]] + Untranslated(r[1..], lang);
  }

  /**
   * One run of the translation effect. The flag `cancelled` is the local
   * variable the run's cleanup sets when the messages or the language change
   * before the batch has finished.
   */
  class Batch {
    const lang: string
    const pending: seq<Message>
    var cancelled: bool

    constructor (lang: string, pending: seq<Message>)
      ensures this.lang == lang && this.pending == pending && !cancelled
    {
      this.lang := lang;
      this.pending := pending;
      cancelled := false;
    }

    /** The cleanup the effect returns. */
    method Cancel()
      modifies this
      ensures cancelled
    {
      cancelled := true;
    }
  }

  /** The translation hook's state. */
  class TranslationHook {
    var isTranslating: bool
    var translatedMessages: seq<Message>

    constructor (messages: seq<Message>)
      ensures !isTranslating && translatedMessages == messages
    {
      isTranslating := false;
      translatedMessages := messages;
    }

    /**
     * The effect body for the current messages and language: nothing to do
     * for the default language or when every message is translated;
     * otherwise a new batch over the untranslated messages starts.
     */
    method RunEffect(messages: seq<Message>, lang: string) returns (batch: Option<Batch>)
      modifies this
      ensures lang == DefaultLanguage ==> batch == None && !isTranslating && translatedMessages == messages
      ensures lang != DefaultLanguage && Untranslated(messages, lang) == [] ==>
                batch == None && isTranslating == old(isTranslating) && translatedMessages == messages
      ensures lang != DefaultLanguage && Untranslated(messages, lang) != [] ==>
                && batch.Some? && fresh(batch.value) && !batch.value.cancelled
                && batch.value.lang == lang && batch.value.pending == Untranslated(messages, lang)
                && isTranslating && translatedMessages == old(translatedMessages)
    {
      if lang == DefaultLanguage {
        isTranslating := false;
        translatedMessages := messages;
        return None;
      }
      var untranslated := Untranslated(messages, lang);
      if |untranslated| == 0 {
        translatedMessages := messages;
        return None;
      }
      var b := new Batch(lang, untranslated);
      isTranslating := true;
      batch := Some(b);
    }

    /**
     * `translatePending` once every translation has settled: a cancelled
     * batch is dropped; otherwise its results are merged and the
     * translating flag is cleared.
     */
    method FinishBatch(batch: Batch, service: Translator)
      modifies this
      ensures batch.cancelled ==> isTranslating == old(isTranslating) && translatedMessages == old(translatedMessages)
      ensures !batch.cancelled ==>
                && !isTranslating
                && translatedMessages == Merge(old(translatedMessages),
                     TranslateAll(batch.pending, t => TranslateText(t, batch.lang, service)), batch.lang)
    {
      var updates := TranslateAll(batch.pending, t => TranslateText(t, batch.lang, service));
      if batch.cancelled {
        return;
      }
      translatedMessages := Merge(translatedMessages, updates, batch.lang);
      isTranslating := false;
    }
  }

  /**
   * The hook filters the `messages` it is given, never the list it merged
   * into, so after a batch completes, switching to the default language and
   * back requests the same messages again.
   */
  method SwitchBackRequestsAgain(hook: TranslationHook, messages: seq<Message>, lang: string, service: Translator)
    returns (first: Option<Batch>, again: Option<Batch>)
    requires lang != DefaultLanguage && Untranslated(messages, lang) != []
    modifies hook
    ensures first.Some? && again.Some? && again.value.pending == first.value.pending
  {
    first := hook.RunEffect(messages, lang);
    hook.FinishBatch(first.value, service);
    var none := hook.RunEffect(messages, DefaultLanguage);
    again := hook.RunEffect(messages, lang);
  }

  /**
   * A batch superseded by a run with nothing left to translate is dropped
   * without clearing the flag: the hook keeps reporting that it is translating.
   */
  method SupersededBatchKeepsFlag(hook: TranslationHook, messages: seq<Message>, later: seq<Message>, lang: string,
                                  service: Translator)
    returns (batch: Option<Batch>)
    requires lang != DefaultLanguage && Untranslated(messages, lang) != [] && Untranslated(later, lang) == []
    modifies hook
    ensures batch.Some? && batch.value.cancelled && hook.isTranslating
  {
    batch := hook.RunEffect(messages, lang);
    batch.value.Cancel();
    var none := hook.RunEffect(later, lang);
    hook.FinishBatch(batch.value, service);
  }
}
