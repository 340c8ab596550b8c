/** The records the client passes around (chat messages and the reference-data entries). */
module Types {

  /** Who wrote a message. */
  datatype Role = User | Agent

  /**
   * One chat message. `translations` maps a language code to the translated
   * text of `text`; only the translation step adds keys to it.
   */
  datatype Message = Message(id: string, role: Role, text: string, translations: map<string, string>)

  /** The three topic categories a chat can be about. */
  datatype CategoryKey = ShareMarket | Astrology | Wellness

  /** A topic category as shown on the selection screen. */
  datatype Category = Category(key: CategoryKey, title: string, description: string)

  /** A display language: its code, its display name (the source's `label`) and the speech-synthesis locale used for it. */
  datatype Language = Language(code: string, name: string, voice: string)

  /** No message of `ms` carries the identifier `id`. */
  predicate FreshId(ms: seq<Message>, id: string)
  {
    forall i :: 0 <= i < |ms| ==> ms[i].id != id
  }

  /** Every identifier in `ms` belongs to exactly one message. */
  predicate DistinctIds(ms: seq<Message>)
  {
    forall i, j :: 0 <= i < j < |ms| ==> ms[i].id != ms[j].id
  }

  /** The string literal of a category key as the source spells it. */
  function KeyName(k: CategoryKey): string
  {
    match k
    case ShareMarket => "share-market"
    case Astrology => "astrology"
    case Wellness => "wellness"
  }
}
