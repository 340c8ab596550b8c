/**
 * Read-aloud playback: the voice locale lookup, an abstract speech engine
 * and the player that keeps at most one utterance in the engine and tracks
 * which message is being read.
 */
module Speech {
  import opened Base
  import opened Types
  import opened JsText
  import Constants

  /** The locale used for a language code missing from the table. */
  const FallbackVoice: string := "en-US"

  /** `getVoiceLocale`: the table's voice for a known language code, else "en-US". */
  function VoiceLocale(code: string): (voice: string)
    ensures forall i :: 0 <= i < |Constants.Languages| && Constants.Languages[i].code == code ==>
              voice == Constants.Languages[i].voice
    ensures (forall i :: 0 <= i < |Constants.Languages| ==> Constants.Languages[i].code != code) ==>
              voice == FallbackVoice
  {
    Constants.LanguagesWellFormed();
    match Constants.FindLanguage(Constants.Languages, code)
    case Some(l) => l.voice
    case None => FallbackVoice
  }

  /** An utterance: the text to read and its locale. */
  datatype Utterance = Utterance(text: string, lang: string)

  /**
   * The browser's speech engine, reduced to its queue of utterances not yet
   * finished and its paused flag; it is speaking while the queue is not empty.
   */
  class SpeechEngine {
    var queue: seq<Utterance>
    var paused: bool

    constructor ()
      ensures queue == [] && !paused
    {
      queue := [];
      paused := false;
    }

    /** `speechSynthesis.speaking`. */
    predicate Speaking()
      reads this
    {
      queue != []
    }

    /** `speak`: queues the utterance behind any other. */
    method Speak(u: Utterance)
      modifies this
      ensures queue == old(queue) + [u] && paused == old(paused)
    {
      queue := queue + [u];
    }

    /** `cancel`: drops every queued utterance; the paused flag is left as it is. */
    method Cancel()
      modifies this
      ensures queue == [] && paused == old(paused)
    {
      queue := [];
    }

    /** `pause`. */
    method Pause()
      modifies this
      ensures paused && queue == old(queue)
    {
      paused := true;
    }

    /** `resume`. */
    method Resume()
      modifies this
      ensures !paused && queue == old(queue)
    {
      paused := false;
    }

    /** The utterance being read ends, normally or with an error. */
    method Finish()
      requires queue != []
      modifies this
      ensures queue == old(queue)[1..] && paused == old(paused)
    {
      queue := queue[1..];
    }
  }

  /** The speech hook's state: the message being read and the last utterance created. */
  class SpeechPlayer {
    var activeSpeechId: Option<string>
    var utterance: Option<Utterance>
    const supported: bool
    const engine: SpeechEngine

    /** At most one utterance is ever in the engine. */
    ghost predicate Valid()
      reads this, engine
    {
      |engine.queue| <= 1
    }

    constructor (supported: bool, engine: SpeechEngine)
      requires |engine.queue| <= 1
      ensures Valid() && this.supported == supported && this.engine == engine
      ensures activeSpeechId == None && utterance == None
    {
      this.supported := supported;
      this.engine := engine;
      activeSpeechId := None;
      utterance := None;
    }

    /** Playing `id` again while the engine is paused resumes it in place. */
    predicate ResumesFor(id: string)
      reads this, engine
    {
      activeSpeechId == Some(id) && engine.paused
    }

    /**
     * `handlePlayMessage(message, displayText)` with `lang` the selected
     * language: resume the paused message, ignore blank text, otherwise
     * cancel whatever is queued and read `displayText` alone.
     */
    method HandlePlayMessage(message: Message, displayText: string, lang: string)
      requires Valid()
      modifies this, engine
      ensures Valid()
      ensures !supported || (!old(ResumesFor(message.id)) && Trim(displayText) == "") ==>
                && activeSpeechId == old(activeSpeechId) && utterance == old(utterance)
                && engine.queue == old(engine.queue) && engine.paused == old(engine.paused)
      ensures supported && old(ResumesFor(message.id)) ==>
                && activeSpeechId == old(activeSpeechId) && utterance == old(utterance)
                && engine.queue == old(engine.queue) && !engine.paused
      ensures supported && !old(ResumesFor(message.id)) && Trim(displayText) != "" ==>
                && activeSpeechId == Some(message.id)
                && utterance == Some(Utterance(displayText, VoiceLocale(lang)))
                && engine.queue == [Utterance(displayText, VoiceLocale(lang))]
                && engine.paused == old(engine.paused)
    {
      if !supported {
        return;
      }
      if activeSpeechId == Some(message.id) && engine.paused {
        engine.Resume();
        return;
      }
      if Trim(displayText) == "" {
        return;
      }
      if engine.Speaking() {
        engine.Cancel();
      }
      var u := Utterance(displayText, VoiceLocale(lang));
      utterance := Some(u);
      activeSpeechId := Some(message.id);
      engine.Speak(u);
    }

    /** `handlePause`: pauses only an engine that is speaking and not already paused. */
    method HandlePause()
      requires Valid()
      modifies engine
      ensures Valid()
      ensures engine.queue == old(engine.queue)
      ensures engine.paused == (old(engine.paused) || (supported && old(engine.Speaking())))
    {
      if !supported {
        return;
      }
      if engine.Speaking() && !engine.paused {
        engine.Pause();
      }
    }

    /** `cleanup`: cancels the engine; the active message is left as it is. */
    method Cleanup()
      requires Valid()
      modifies engine
      ensures Valid()
      ensures supported ==> engine.queue == []
      ensures !supported ==> engine.queue == old(engine.queue)
      ensures engine.paused == old(engine.paused)
    {
      if supported {
        engine.Cancel();
      }
    }

    /**
     * The utterance's `onend`/`onerror` callback. It clears the active
     * message whichever utterance it belongs to, including one that was
     * cancelled to make room for a newer one.
     */
    method UtteranceSettled()
      requires Valid()
      modifies this
      ensures Valid()
      ensures activeSpeechId == None && utterance == None
    {
      activeSpeechId := None;
      utterance := None;
    }

    /** The engine finishes the utterance it is reading and fires that utterance's callback. */
    method EngineFinishes()
      requires Valid() && engine.queue != []
      modifies this, engine
      ensures Valid()
      ensures engine.queue == [] && engine.paused == old(engine.paused)
      ensures activeSpeechId == None && utterance == None
    {
      engine.Finish();
      UtteranceSettled();
    }
  }
}
