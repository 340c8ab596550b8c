/** The reference tables and the configured agent endpoint. */
module Constants {
  import opened Base
  import opened Types

  /** The production agent endpoint used when no endpoint is configured. */
  const DefaultWebhookUrl: string :=
    "https://n8n.srv650558.hstgr.cloud/webhook/3967230f-99b6-4a50-b049-be711b89c3b3"

  /**
   * The agent endpoint: the configured value when it is set and non-empty
   * (JavaScript `||` treats the empty string as missing), else the default.
   */
  function WebhookUrl(configured: Option<string>): (url: string)
    ensures url == DefaultWebhookUrl || (configured.Some? && url == configured.value)
    ensures url == DefaultWebhookUrl <== (configured == None || configured == Some(""))
    ensures configured.Some? && configured.value != "" ==> url == configured.value
  {
    match configured
    case Some(v) => if v != "" then v else DefaultWebhookUrl
    case None => DefaultWebhookUrl
  }

  const Categories: seq<Category> := [
    Category(ShareMarket, "Share Market",
      "Get insights, market trends, and portfolio guidance tailored to you."),
    Category(Astrology, "Astrology",
      "Explore celestial guidance, horoscope readings, and personalized astrological advice."),
    Category(Wellness, "Wellness",
      "Receive tips on mindfulness, nutrition, fitness, and holistic wellbeing.")
  ]

  const Languages: seq<Language> := [
    Language("en", "English", "en-US"),
    Language("hi", "Hindi", "hi-IN"),
    Language("mr", "Marathi", "mr-IN"),
    Language("bn", "Bengali", "bn-IN"),
    Language("ta", "Tamil", "ta-IN"),
    Language("te", "Telugu", "te-IN")
  ]

  /** The category label the agent endpoint expects for a category key. */
  function WebhookLabel(k: CategoryKey): (tag: string)
    ensures tag == KeyName(k) <==> k != Astrology
    ensures k == Astrology ==> tag == "Astrology"
  {
    match k
    case ShareMarket => "share-market"
    case Astrology => "Astrology"
    case Wellness => "wellness"
  }

  /** Distinct categories are sent to the agent under distinct labels. */
  lemma WebhookLabelInjective(a: CategoryKey, b: CategoryKey)
    ensures WebhookLabel(a) == WebhookLabel(b) ==> a == b
  {
  }

  /** The category table lists every key exactly once, in the order share-market, astrology, wellness. */
  lemma CategoriesCoverKeys(k: CategoryKey)
    ensures |Categories| == 3
    ensures forall i, j :: 0 <= i < j < |Categories| ==> Categories[i].key != Categories[j].key
    ensures exists i :: 0 <= i < |Categories| && Categories[i].key == k
  {
    match k
    case ShareMarket => assert Categories[0].key == k;
    case Astrology => assert Categories[1].key == k;
    case Wellness => assert Categories[2].key == k;
  }

  /** Language codes are distinct, so a lookup by code is well defined; English speaks as "en-US". */
  lemma LanguagesWellFormed()
    ensures |Languages| == 6
    ensures forall i, j :: 0 <= i < j < |Languages| ==> Languages[i].code != Languages[j].code
    ensures Languages[0] == Language("en", "English", "en-US")
  {
  }

  /**
   * `Array.prototype.find` over a language table: the first entry whose code
   * is `code`, or `None` when no entry has it.
   */
  function FindLanguage(table: seq<Language>, code: string): (r: Option<Language>)
    ensures r.None? <==> forall i :: 0 <= i < |table| ==> table[i].code != code
    ensures r.Some? ==> exists i :: 0 <= i < |table| && table[i] == r.value && r.value.code == code
                                    && forall j :: 0 <= j < i ==> table[j].code != code
  {
    if table == [] then None
    else if table[0].code == code then Some(table[0])
    else FindLanguage(table[1..], code)
  }
}
