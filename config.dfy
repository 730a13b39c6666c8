/** `TranscriptionConfig` (assemblyai/types.py): an object that holds a record of
    optional request fields and updates it in place through property setters and
    `set_*` helpers, some of which refuse their arguments with ValueError. Each
    update is specified by a function on the record; the class applies it. */
module Config {
  import opened Wrappers
  import opened Types

  /** One custom-spelling record: the spellings to replace, and their replacement. */
  datatype Spelling = Spelling(from: seq<string>, to: string)

  /** The value of a `custom_spelling` entry: one spelling or a sequence of them. */
  datatype SpellingSource = One(word: string) | Many(words: seq<string>)

  /** `RawTranscriptionConfig` with the fields the setters manage (all optional). */
  datatype RawConfig = RawConfig(
    languageCode: Option<string>,
    punctuate: Option<bool>,
    formatText: Option<bool>,
    dualChannel: Option<bool>,
    webhookUrl: Option<string>,
    webhookAuthHeaderName: Option<string>,
    webhookAuthHeaderValue: Option<string>,
    audioStartFrom: Option<int>,
    audioEndAt: Option<int>,
    wordBoost: Option<seq<string>>,
    boostParam: Option<WordBoost>,
    filterProfanity: Option<bool>,
    redactPii: Option<bool>,
    redactPiiAudio: Option<bool>,
    redactPiiPolicies: Option<seq<string>>,
    redactPiiSub: Option<PIISubstitutionPolicy>,
    speakerLabels: Option<bool>,
    speakersExpected: Option<int>,
    contentSafety: Option<bool>,
    contentSafetyConfidence: Option<int>,
    iabCategories: Option<bool>,
    customSpelling: Option<seq<Spelling>>,
    disfluencies: Option<bool>,
    sentimentAnalysis: Option<bool>,
    autoChapters: Option<bool>,
    entityDetection: Option<bool>,
    summarization: Option<bool>,
    summaryModel: Option<SummarizationModel>,
    summaryType: Option<SummarizationType>,
    autoHighlights: Option<bool>,
    languageDetection: Option<bool>)

  /** `RawTranscriptionConfig()`: every field None. */
  const EmptyRaw: RawConfig := RawConfig(None, None, None, None, None, None, None, None, None, None, None, None,
    None, None, None, None, None, None, None, None, None, None, None, None, None, None, None, None, None, None, None)

  /** Python's truth value of an optional flag. */
  predicate Enabled(b: Option<bool>) {
    b == Some(true)
  }

  /** The boolean fields that have a plain property setter. */
  datatype Flag = Punctuate | FormatText | DualChannel | FilterProfanity | IabCategories
                | Disfluencies | SentimentAnalysis | EntityDetection | AutoHighlights | LanguageDetection

  /** The property getter of a flag. */
  function FlagValue(c: RawConfig, f: Flag): Option<bool> {
    match f
    case Punctuate => c.punctuate
    case FormatText => c.formatText
    case DualChannel => c.dualChannel
    case FilterProfanity => c.filterProfanity
    case IabCategories => c.iabCategories
    case Disfluencies => c.disfluencies
    case SentimentAnalysis => c.sentimentAnalysis
    case EntityDetection => c.entityDetection
    case AutoHighlights => c.autoHighlights
    case LanguageDetection => c.languageDetection
  }

  /** The record with every plain flag None, i.e. everything a flag setter must not touch. */
  function WithoutFlags(c: RawConfig): RawConfig {
    c.(punctuate := None, formatText := None, dualChannel := None, filterProfanity := None, iabCategories := None,
       disfluencies := None, sentimentAnalysis := None, entityDetection := None, autoHighlights := None,
       languageDetection := None)
  }

  /** The property setter of a flag: it stores the value as given, whatever it is. */
  function WithFlag(c: RawConfig, f: Flag, v: Option<bool>): (r: RawConfig)
    ensures FlagValue(r, f) == v
    ensures forall g :: g != f ==> FlagValue(r, g) == FlagValue(c, g)
    ensures WithoutFlags(r) == WithoutFlags(c)
  {
    match f
    case Punctuate => c.(punctuate := v)
    case FormatText => c.(formatText := v)
    case DualChannel => c.(dualChannel := v)
    case FilterProfanity => c.(filterProfanity := v)
    case IabCategories => c.(iabCategories := v)
    case Disfluencies => c.(disfluencies := v)
    case SentimentAnalysis => c.(sentimentAnalysis := v)
    case EntityDetection => c.(entityDetection := v)
    case AutoHighlights => c.(autoHighlights := v)
    case LanguageDetection => c.(languageDetection := v)
  }

  /** Setting a flag twice keeps the last value; setting it to what it is changes nothing. */
  lemma WithFlagLastWins(c: RawConfig, f: Flag, v: Option<bool>, w: Option<bool>)
    ensures WithFlag(WithFlag(c, f, v), f, w) == WithFlag(c, f, w)
    ensures WithFlag(c, f, FlagValue(c, f)) == c
  {
  }

  /** The `auto_chapters` setter: enabling it while punctuation is explicitly off raises. */
  function WithAutoChapters(c: RawConfig, enable: Option<bool>): (r: Result<RawConfig>)
    ensures r.Raised? <==> Enabled(enable) && c.punctuate == Some(false)
    ensures r.Raised? ==> r.exc == ValueError
    ensures r.Ok? ==> r.value == c.(autoChapters := enable)
  {
    if Enabled(enable) && c.punctuate == Some(false) then Raised(ValueError) else Ok(c.(autoChapters := enable))
  }

  /** `set_casing_and_formatting`. */
  function WithCasingAndFormatting(c: RawConfig, enable: bool): (r: RawConfig)
    ensures r.punctuate == Some(enable) && r.formatText == Some(enable)
    ensures r.(punctuate := c.punctuate, formatText := c.formatText) == c
  {
    c.(punctuate := Some(enable), formatText := Some(enable))
  }

  /** `set_speaker_diarization`: disabling clears both fields; enabling sets the label flag and stores the count. */
  function WithSpeakerDiarization(c: RawConfig, enable: Option<bool>, speakersExpected: Option<int>): (r: RawConfig)
    ensures !Enabled(enable) ==> r.speakerLabels == None && r.speakersExpected == None
    ensures Enabled(enable) ==> r.speakerLabels == Some(true) && r.speakersExpected == speakersExpected
    ensures r.(speakerLabels := c.speakerLabels, speakersExpected := c.speakersExpected) == c
  {
    if !Enabled(enable) then c.(speakerLabels := None, speakersExpected := None)
    else c.(speakerLabels := Some(true), speakersExpected := speakersExpected)
  }

  /** `set_webhook`: no URL clears all three fields; a URL is stored, and the header
      name and value are written only when both are non-empty, otherwise they are kept. */
  function WithWebhook(c: RawConfig, url: Option<string>, name: Option<string>, value: Option<string>): (r: RawConfig)
    ensures url.None? ==> r.webhookUrl == None && r.webhookAuthHeaderName == None && r.webhookAuthHeaderValue == None
    ensures url.Some? ==> r.webhookUrl == url
    ensures url.Some? && HeaderGiven(name, value) ==> r.webhookAuthHeaderName == name && r.webhookAuthHeaderValue == value
    ensures url.Some? && !HeaderGiven(name, value) ==>
      r.webhookAuthHeaderName == c.webhookAuthHeaderName && r.webhookAuthHeaderValue == c.webhookAuthHeaderValue
    ensures r.(webhookUrl := c.webhookUrl, webhookAuthHeaderName := c.webhookAuthHeaderName,
               webhookAuthHeaderValue := c.webhookAuthHeaderValue) == c
  {
    if url.None? then c.(webhookUrl := None, webhookAuthHeaderName := None, webhookAuthHeaderValue := None)
    else if HeaderGiven(name, value) then c.(webhookUrl := url, webhookAuthHeaderName := name, webhookAuthHeaderValue := value)
    else c.(webhookUrl := url)
  }

  /** Both header parts are truthy strings. */
  predicate HeaderGiven(name: Option<string>, value: Option<string>) {
    name.Some? && name.value != "" && value.Some? && value.value != ""
  }

  /** `set_word_boost`: no words clears both fields; otherwise the words and the boost
      are stored as passed, so an explicit None boost is stored as None. */
  function WithWordBoost(c: RawConfig, words: seq<string>, boost: Option<WordBoost>): (r: RawConfig)
    ensures words == [] ==> r.wordBoost == None && r.boostParam == None
    ensures words != [] ==> r.wordBoost == Some(words) && r.boostParam == boost
    ensures r.(wordBoost := c.wordBoost, boostParam := c.boostParam) == c
  {
    if words == [] then c.(wordBoost := None, boostParam := None)
    else c.(wordBoost := Some(words), boostParam := boost)
  }

  /** `set_redact_pii`: disabling clears all four fields; enabling without a policy
      raises ValueError; otherwise redaction is on and the rest is stored as given. */
  function WithRedactPii(c: RawConfig, enable: Option<bool>, redactAudio: Option<bool>,
                         policies: Option<seq<string>>, substitution: Option<PIISubstitutionPolicy>): (r: Result<RawConfig>)
    ensures !Enabled(enable) ==> r == Ok(c.(redactPii := None, redactPiiAudio := None, redactPiiPolicies := None, redactPiiSub := None))
    ensures Enabled(enable) ==> (r.Raised? <==> policies.None? || policies.value == [])
    ensures r.Raised? ==> r.exc == ValueError
    ensures r.Ok? && r.value.redactPii.Some? ==>
      r.value == c.(redactPii := Some(true), redactPiiAudio := redactAudio, redactPiiPolicies := policies, redactPiiSub := substitution)
    ensures r.Ok? && r.value.redactPii.Some? ==> r.value.redactPiiPolicies.Some? && r.value.redactPiiPolicies.value != []
  {
    if !Enabled(enable) then
      Ok(c.(redactPii := None, redactPiiAudio := None, redactPiiPolicies := None, redactPiiSub := None))
    else if policies.None? || policies.value == [] then Raised(ValueError)
    else Ok(c.(redactPii := Some(true), redactPiiAudio := redactAudio, redactPiiPolicies := policies, redactPiiSub := substitution))
  }

  /** The confidence bounds of content safety detection, inclusive. */
  predicate ConfidenceAllowed(confidence: Option<int>) {
    confidence.None? || 25 <= confidence.value <= 100
  }

  /** `set_content_safety`: disabling clears both fields; enabling stores the confidence
      when it is None or within 25..100, and raises ValueError before any change otherwise. */
  function WithContentSafety(c: RawConfig, enable: Option<bool>, confidence: Option<int>): (r: Result<RawConfig>)
    ensures !Enabled(enable) ==> r == Ok(c.(contentSafety := None, contentSafetyConfidence := None))
    ensures Enabled(enable) ==> (r.Raised? <==> !ConfidenceAllowed(confidence))
    ensures r.Raised? ==> r.exc == ValueError
    ensures Enabled(enable) && r.Ok? ==> r.value == c.(contentSafety := Some(true), contentSafetyConfidence := confidence)
    ensures r.Ok? ==> ConfidenceAllowed(r.value.contentSafetyConfidence)
  {
    if !Enabled(enable) then Ok(c.(contentSafety := None, contentSafetyConfidence := None))
    else if !ConfidenceAllowed(confidence) then Raised(ValueError)
    else Ok(c.(contentSafety := Some(true), contentSafetyConfidence := confidence))
  }

  /** The record one replacement entry appends: a lone spelling becomes a one-element list. */
  function SpellingRecord(to: string, source: SpellingSource): (s: Spelling)
    ensures s.to == to
    ensures s.from == (if source.One? then [source.word] else source.words)
  {
    Spelling(if source.One? then [source.word] else source.words, to)
  }

  /** The records a replacement mapping appends, one per entry, in the mapping's order. */
  function SpellingRecords(replacement: seq<(string, SpellingSource)>): (r: seq<Spelling>)
    ensures |r| == |replacement|
  {
    if replacement == [] then []
    else SpellingRecords(replacement[..|replacement| - 1])
         + [SpellingRecord(replacement[|replacement| - 1].0, replacement[|replacement| - 1].1)]
  }

  lemma {:induction false} SpellingRecordsAt(replacement: seq<(string, SpellingSource)>, k: nat)
    requires k < |replacement|
    ensures SpellingRecords(replacement)[k] == SpellingRecord(replacement[k].0, replacement[k].1)
    decreases |replacement|
  {
    if k < |replacement| - 1 {
      SpellingRecordsAt(replacement[..|replacement| - 1], k);
    }
  }

  /** `set_custom_spelling`: None clears the field; otherwise the list is restarted when
      `override` is set or there is none yet, and one record per entry is appended. */
  function WithCustomSpelling(c: RawConfig, replacement: Option<seq<(string, SpellingSource)>>, override: bool): (r: RawConfig)
    ensures replacement.None? ==> r.customSpelling == None
    ensures replacement.Some? ==> r.customSpelling.Some?
    ensures replacement.Some? && (override || c.customSpelling.None?) ==>
      r.customSpelling.value == SpellingRecords(replacement.value)
    ensures replacement.Some? && !override && c.customSpelling.Some? ==>
      r.customSpelling.value == c.customSpelling.value + SpellingRecords(replacement.value)
    ensures r.(customSpelling := c.customSpelling) == c
  {
    if replacement.None? then c.(customSpelling := None)
    else
      var start := if c.customSpelling.None? || override then [] else c.customSpelling.value;
      c.(customSpelling := Some(start + SpellingRecords(replacement.value)))
  }

  /** `set_summarize`: disabling clears the three fields; enabling raises ValueError when
      punctuation or formatting is explicitly off (None is allowed), and otherwise turns
      summarization on with the given model and type. */
  function WithSummarize(c: RawConfig, enable: Option<bool>, model: Option<SummarizationModel>,
                         summaryType: Option<SummarizationType>): (r: Result<RawConfig>)
    ensures !Enabled(enable) ==> r == Ok(c.(summarization := None, summaryModel := None, summaryType := None))
    ensures Enabled(enable) ==> (r.Raised? <==> c.punctuate == Some(false) || c.formatText == Some(false))
    ensures r.Raised? ==> r.exc == ValueError
    ensures Enabled(enable) && r.Ok? ==>
      r.value == c.(summarization := Some(true), summaryModel := model, summaryType := summaryType)
  {
    if !Enabled(enable) then Ok(c.(summarization := None, summaryModel := None, summaryType := None))
    else if c.punctuate == Some(false) then Raised(ValueError)
    else if c.formatText == Some(false) then Raised(ValueError)
    else Ok(c.(summarization := Some(true), summaryModel := model, summaryType := summaryType))
  }

  /** The keyword arguments of `TranscriptionConfig(...)` (all default to None, `word_boost` to []). */
  datatype ConfigArgs = ConfigArgs(
    languageCode: Option<string>,
    punctuate: Option<bool>,
    formatText: Option<bool>,
    dualChannel: Option<bool>,
    webhookUrl: Option<string>,
    webhookAuthHeaderName: Option<string>,
    webhookAuthHeaderValue: Option<string>,
    audioStartFrom: Option<int>,
    audioEndAt: Option<int>,
    wordBoost: seq<string>,
    boostParam: Option<WordBoost>,
    filterProfanity: Option<bool>,
    redactPii: Option<bool>,
    redactPiiAudio: Option<bool>,
    redactPiiPolicies: Option<seq<string>>,
    redactPiiSub: Option<PIISubstitutionPolicy>,
    speakerLabels: Option<bool>,
    speakersExpected: Option<int>,
    contentSafety: Option<bool>,
    contentSafetyConfidence: Option<int>,
    iabCategories: Option<bool>,
    customSpelling: Option<seq<(string, SpellingSource)>>,
    disfluencies: Option<bool>,
    sentimentAnalysis: Option<bool>,
    autoChapters: Option<bool>,
    entityDetection: Option<bool>,
    summarization: Option<bool>,
    summaryModel: Option<SummarizationModel>,
    summaryType: Option<SummarizationType>,
    autoHighlights: Option<bool>,
    languageDetection: Option<bool>)

  const DefaultArgs: ConfigArgs := ConfigArgs(None, None, None, None, None, None, None, None, None, [], None, None,
    None, None, None, None, None, None, None, None, None, None, None, None, None, None, None, None, None, None, None)

  /** The first part of the constructor, up to the first setter that can raise. */
  function ConfigureFirst(a: ConfigArgs, base: RawConfig): (r: RawConfig)
    ensures r.punctuate == a.punctuate && r.formatText == a.formatText
  {
    var c0 := base.(languageCode := a.languageCode);
    var c1 := WithFlag(WithFlag(WithFlag(c0, Punctuate, a.punctuate), FormatText, a.formatText), DualChannel, a.dualChannel);
    var c2 := WithWebhook(c1, a.webhookUrl, a.webhookAuthHeaderName, a.webhookAuthHeaderValue);
    var c3 := c2.(audioStartFrom := a.audioStartFrom, audioEndAt := a.audioEndAt);
    WithFlag(WithWordBoost(c3, a.wordBoost, a.boostParam), FilterProfanity, a.filterProfanity)
  }

  /** The rest of the constructor, from `set_redact_pii` on; the first setter that raises ends it. */
  function ConfigureRest(a: ConfigArgs, c: RawConfig): (r: Result<RawConfig>)
    ensures r.Raised? ==> r.exc == ValueError
    ensures r.Raised? <==>
      (Enabled(a.redactPii) && (a.redactPiiPolicies.None? || a.redactPiiPolicies.value == []))
      || (Enabled(a.contentSafety) && !ConfidenceAllowed(a.contentSafetyConfidence))
      || (Enabled(a.autoChapters) && c.punctuate == Some(false))
      || (Enabled(a.summarization) && (c.punctuate == Some(false) || c.formatText == Some(false)))
  {
    match WithRedactPii(c, a.redactPii, a.redactPiiAudio, a.redactPiiPolicies, a.redactPiiSub)
    case Raised(e) => Raised(e)
    case Ok(c) =>
      var c := WithSpeakerDiarization(c, a.speakerLabels, a.speakersExpected);
      match WithContentSafety(c, a.contentSafety, a.contentSafetyConfidence)
      case Raised(e) => Raised(e)
      case Ok(c) =>
        match WithAutoChapters(Middle(c, a), a.autoChapters)
        case Raised(e) => Raised(e)
        case Ok(c) => Last(c, a)
  }

  /** The constructor's sequence of setters applied to the starting record (an empty one,
      or the `raw_transcription_config` passed); the first setter that raises ends it. */
  function Configure(a: ConfigArgs, base: RawConfig): (r: Result<RawConfig>)
    ensures r.Raised? ==> r.exc == ValueError
    ensures r.Raised? <==>
      (Enabled(a.redactPii) && (a.redactPiiPolicies.None? || a.redactPiiPolicies.value == []))
      || (Enabled(a.contentSafety) && !ConfidenceAllowed(a.contentSafetyConfidence))
      || (Enabled(a.autoChapters) && a.punctuate == Some(false))
      || (Enabled(a.summarization) && (a.punctuate == Some(false) || a.formatText == Some(false)))
  {
    ConfigureRest(a, ConfigureFirst(a, base))
  }

  /** `TranscriptionConfig()` leaves every field None; in particular the default empty
      word list clears word boost. */
  lemma DefaultConfigIsEmpty()
    ensures Configure(DefaultArgs, EmptyRaw) == Ok(EmptyRaw)
  {
    FirstOnEmpty();
    RestOnEmpty();
  }

  lemma FirstOnEmpty()
    ensures ConfigureFirst(DefaultArgs, EmptyRaw) == EmptyRaw
  {
    var e := EmptyRaw;
    WithFlagLastWins(e, Punctuate, None, None);
    WithFlagLastWins(e, FormatText, None, None);
    WithFlagLastWins(e, DualChannel, None, None);
    WithFlagLastWins(e, FilterProfanity, None, None);
    assert WithWebhook(e, None, None, None) == e;
    assert WithWordBoost(e, [], None) == e;
  }

  lemma RestOnEmpty()
    ensures ConfigureRest(DefaultArgs, EmptyRaw) == Ok(EmptyRaw)
  {
    var e, a := EmptyRaw, DefaultArgs;
    assert WithRedactPii(e, None, None, None, None) == Ok(e);
    assert WithSpeakerDiarization(e, None, None) == e;
    assert WithContentSafety(e, None, None) == Ok(e);
    MiddleOnEmpty();
    assert WithAutoChapters(e, None) == Ok(e);
    LastOnEmpty();
  }

  lemma MiddleOnEmpty()
    ensures Middle(EmptyRaw, DefaultArgs) == EmptyRaw
  {
    var e := EmptyRaw;
    WithFlagLastWins(e, IabCategories, None, None);
    assert WithCustomSpelling(e, None, true) == e;
    WithFlagLastWins(e, Disfluencies, None, None);
    WithFlagLastWins(e, SentimentAnalysis, None, None);
  }

  lemma LastOnEmpty()
    ensures Last(EmptyRaw, DefaultArgs) == Ok(EmptyRaw)
  {
    var e := EmptyRaw;
    WithFlagLastWins(e, EntityDetection, None, None);
    assert WithSummarize(e, None, None, None) == Ok(e);
    WithFlagLastWins(e, AutoHighlights, None, None);
    WithFlagLastWins(e, LanguageDetection, None, None);
  }

  /** The fields the second part of the constructor always overwrites, blanked; each
      `BlankK` blanks the fields of the setter stages from the K-th on. */
  function Unset(c: RawConfig): RawConfig {
    Blank2(c.(redactPii := None, redactPiiAudio := None, redactPiiPolicies := None, redactPiiSub := None))
  }

  function Blank2(c: RawConfig): RawConfig {
    Blank3(c.(speakerLabels := None, speakersExpected := None))
  }

  function Blank3(c: RawConfig): RawConfig {
    Blank4(c.(contentSafety := None, contentSafetyConfidence := None))
  }

  function Blank4(c: RawConfig): RawConfig {
    Blank6(c.(iabCategories := None, customSpelling := None, disfluencies := None, sentimentAnalysis := None))
  }

  function Blank6(c: RawConfig): RawConfig {
    Blank7(c.(autoChapters := None))
  }

  function Blank7(c: RawConfig): RawConfig {
    c.(entityDetection := None, summarization := None, summaryModel := None, summaryType := None,
       autoHighlights := None, languageDetection := None)
  }

  lemma RedactPiiBlank(c: RawConfig, a: ConfigArgs)
    ensures var p := WithRedactPii(c, a.redactPii, a.redactPiiAudio, a.redactPiiPolicies, a.redactPiiSub);
      WithRedactPii(Unset(c), a.redactPii, a.redactPiiAudio, a.redactPiiPolicies, a.redactPiiSub)
      == if p.Ok? then Ok(Blank2(p.value)) else p
  {
  }

  lemma DiarizationBlank(c: RawConfig, a: ConfigArgs)
    ensures WithSpeakerDiarization(Blank2(c), a.speakerLabels, a.speakersExpected)
      == Blank3(WithSpeakerDiarization(c, a.speakerLabels, a.speakersExpected))
  {
  }

  lemma ContentSafetyBlank(c: RawConfig, a: ConfigArgs)
    ensures var p := WithContentSafety(c, a.contentSafety, a.contentSafetyConfidence);
      WithContentSafety(Blank3(c), a.contentSafety, a.contentSafetyConfidence)
      == if p.Ok? then Ok(Blank4(p.value)) else p
  {
  }

  /** The unconditional setters between content safety and auto chapters. */
  function Middle(c: RawConfig, a: ConfigArgs): (r: RawConfig)
    ensures r.punctuate == c.punctuate && r.formatText == c.formatText
  {
    var c := WithCustomSpelling(WithFlag(c, IabCategories, a.iabCategories), a.customSpelling, true);
    WithFlag(WithFlag(c, Disfluencies, a.disfluencies), SentimentAnalysis, a.sentimentAnalysis)
  }

  lemma MiddleBlank(c: RawConfig, a: ConfigArgs)
    ensures Middle(Blank4(c), a) == Blank6(Middle(c, a))
  {
  }

  lemma AutoChaptersBlank(c: RawConfig, a: ConfigArgs)
    ensures var p := WithAutoChapters(c, a.autoChapters);
      WithAutoChapters(Blank6(c), a.autoChapters) == if p.Ok? then Ok(Blank7(p.value)) else p
  {
  }

  /** The last setters, from `entity_detection` on. */
  function Last(c: RawConfig, a: ConfigArgs): (r: Result<RawConfig>)
    ensures r.Raised? ==> r.exc == ValueError
    ensures r.Raised? <==> Enabled(a.summarization) && (c.punctuate == Some(false) || c.formatText == Some(false))
  {
    match WithSummarize(WithFlag(c, EntityDetection, a.entityDetection), a.summarization, a.summaryModel, a.summaryType)
    case Raised(e) => Raised(e)
    case Ok(c) => Ok(WithFlag(WithFlag(c, AutoHighlights, a.autoHighlights), LanguageDetection, a.languageDetection))
  }

  lemma LastBlank(c: RawConfig, a: ConfigArgs)
    ensures Last(Blank7(c), a) == Last(c, a)
  {
  }

  /** Each setter of the second part gives the same answer on a record whose later-stage
      fields are blanked, up to those fields, so the blanked fields never matter. */
  lemma {:induction false} RestOverwrites(a: ConfigArgs, c: RawConfig)
    ensures ConfigureRest(a, c) == ConfigureRest(a, Unset(c))
  {
    RedactPiiBlank(c, a);
    var p1 := WithRedactPii(c, a.redactPii, a.redactPiiAudio, a.redactPiiPolicies, a.redactPiiSub);
    if p1.Ok? {
      var c2 := WithSpeakerDiarization(p1.value, a.speakerLabels, a.speakersExpected);
      DiarizationBlank(p1.value, a);
      ContentSafetyBlank(c2, a);
      var p3 := WithContentSafety(c2, a.contentSafety, a.contentSafetyConfidence);
      if p3.Ok? {
        MiddleBlank(p3.value, a);
        var c5 := Middle(p3.value, a);
        AutoChaptersBlank(c5, a);
        var p6 := WithAutoChapters(c5, a.autoChapters);
        if p6.Ok? {
          LastBlank(p6.value, a);
        }
      }
    }
  }

  lemma FirstOverwrites(a: ConfigArgs, base: RawConfig)
    ensures Unset(ConfigureFirst(a, base)) == Unset(ConfigureFirst(a, HeadersOnly(base)))
  {
  }

  /** An empty record that keeps only the webhook header pair of `c`. */
  function HeadersOnly(c: RawConfig): RawConfig {
    EmptyRaw.(webhookAuthHeaderName := c.webhookAuthHeaderName, webhookAuthHeaderValue := c.webhookAuthHeaderValue)
  }

  /** The explicit arguments overwrite the passed record, None included: of the passed
      record only the webhook header pair can matter (it survives when a URL is given
      without both header parts). */
  lemma {:induction false} ExplicitArgumentsOverwriteBase(a: ConfigArgs, base: RawConfig)
    ensures Configure(a, base) == Configure(a, HeadersOnly(base))
  {
    RestOverwrites(a, ConfigureFirst(a, base));
    RestOverwrites(a, ConfigureFirst(a, HeadersOnly(base)));
    FirstOverwrites(a, base);
  }

  /** How a setter that may raise leaves the record: the new record on success, the old one on an exception. */
  predicate Applied(r: Result<RawConfig>, raised: Option<Exception>, before: RawConfig, after: RawConfig) {
    && (r.Ok? ==> raised == None && after == r.value)
    && (r.Raised? ==> raised == Some(r.exc) && after == before)
  }

  class TranscriptionConfig {
    /** The wrapped `RawTranscriptionConfig`. */
    var raw: RawConfig

    constructor (start: RawConfig)
      ensures raw == start
    {
      raw := start;
    }

    /** `TranscriptionConfig(...)`: start from the passed record or an empty one and apply
        the setters in the constructor's order; an exception from one of them is raised
        instead of returning an object. */
    static method Create(a: ConfigArgs, rawConfig: Option<RawConfig>) returns (r: Result<TranscriptionConfig>)
      ensures var base := if rawConfig.Some? then rawConfig.value else EmptyRaw;
        && (r.Raised? <==> Configure(a, base).Raised?)
        && (r.Raised? ==> r.exc == Configure(a, base).exc)
        && (r.Ok? ==> fresh(r.value) && r.value.raw == Configure(a, base).value)
    {
      var c := new TranscriptionConfig(if rawConfig.Some? then rawConfig.value else EmptyRaw);
      c.SetLanguageCode(a.languageCode);
      c.SetFlag(Punctuate, a.punctuate);
      c.SetFlag(FormatText, a.formatText);
      c.SetFlag(DualChannel, a.dualChannel);
      c.SetWebhook(a.webhookUrl, a.webhookAuthHeaderName, a.webhookAuthHeaderValue);
      c.SetAudioSlice(a.audioStartFrom, a.audioEndAt);
      c.SetWordBoost(a.wordBoost, a.boostParam);
      c.SetFlag(FilterProfanity, a.filterProfanity);
      var raised := c.SetRedactPii(a.redactPii, a.redactPiiAudio, a.redactPiiPolicies, a.redactPiiSub);
      if raised.Some? {
        return Raised(raised.value);
      }
      c.SetSpeakerDiarization(a.speakerLabels, a.speakersExpected);
      raised := c.SetContentSafety(a.contentSafety, a.contentSafetyConfidence);
      if raised.Some? {
        return Raised(raised.value);
      }
      c.SetFlag(IabCategories, a.iabCategories);
      c.SetCustomSpelling(a.customSpelling, true);
      c.SetFlag(Disfluencies, a.disfluencies);
      c.SetFlag(SentimentAnalysis, a.sentimentAnalysis);
      raised := c.SetAutoChapters(a.autoChapters);
      if raised.Some? {
        return Raised(raised.value);
      }
      c.SetFlag(EntityDetection, a.entityDetection);
      raised := c.SetSummarize(a.summarization, a.summaryModel, a.summaryType);
      if raised.Some? {
        return Raised(raised.value);
      }
      c.SetFlag(AutoHighlights, a.autoHighlights);
      c.SetFlag(LanguageDetection, a.languageDetection);
      return Ok(c);
    }

    /** The `language_code` setter. */
    method SetLanguageCode(code: Option<string>)
      modifies this
      ensures raw == old(raw).(languageCode := code)
    {
      raw := raw.(languageCode := code);
    }

    /** The property setter of one of the plain flags. */
    method SetFlag(f: Flag, v: Option<bool>)
      modifies this
      ensures raw == WithFlag(old(raw), f, v)
    {
      raw := WithFlag(raw, f, v);
    }

    /** The `auto_chapters` setter. */
    method SetAutoChapters(enable: Option<bool>) returns (raised: Option<Exception>)
      modifies this
      ensures Applied(WithAutoChapters(old(raw), enable), raised, old(raw), raw)
    {
      if Enabled(enable) && raw.punctuate == Some(false) {
        return Some(ValueError);
      }
      raw := raw.(autoChapters := enable);
      return None;
    }

    method SetCasingAndFormatting(enable: bool)
      modifies this
      ensures raw == WithCasingAndFormatting(old(raw), enable)
    {
      raw := raw.(punctuate := Some(enable), formatText := Some(enable));
    }

    method SetSpeakerDiarization(enable: Option<bool>, speakersExpected: Option<int>)
      modifies this
      ensures raw == WithSpeakerDiarization(old(raw), enable, speakersExpected)
    {
      if !Enabled(enable) {
        raw := raw.(speakerLabels := None, speakersExpected := None);
      } else {
        raw := raw.(speakerLabels := Some(true), speakersExpected := speakersExpected);
      }
    }

    method SetWebhook(url: Option<string>, name: Option<string>, value: Option<string>)
      modifies this
      ensures raw == WithWebhook(old(raw), url, name, value)
    {
      if url.None? {
        raw := raw.(webhookUrl := None, webhookAuthHeaderName := None, webhookAuthHeaderValue := None);
        return;
      }
      raw := raw.(webhookUrl := url);
      if HeaderGiven(name, value) {
        raw := raw.(webhookAuthHeaderName := name, webhookAuthHeaderValue := value);
      }
    }

    /** `set_audio_slice`: both bounds are stored as given. */
    method SetAudioSlice(start: Option<int>, end: Option<int>)
      modifies this
      ensures raw == old(raw).(audioStartFrom := start, audioEndAt := end)
    {
      raw := raw.(audioStartFrom := start, audioEndAt := end);
    }

    /** `set_word_boost`; the default boost written first for a falsy `boost` is overwritten by it at once. */
    method SetWordBoost(words: seq<string>, boost: Option<WordBoost>)
      modifies this
      ensures raw == WithWordBoost(old(raw), words, boost)
    {
      if words == [] {
        raw := raw.(wordBoost := None, boostParam := None);
        return;
      }
      if boost.None? {
        raw := raw.(boostParam := Some(Default));
      }
      raw := raw.(wordBoost := Some(words));
      raw := raw.(boostParam := boost);
    }

    method SetRedactPii(enable: Option<bool>, redactAudio: Option<bool>, policies: Option<seq<string>>,
                        substitution: Option<PIISubstitutionPolicy>) returns (raised: Option<Exception>)
      modifies this
      ensures Applied(WithRedactPii(old(raw), enable, redactAudio, policies, substitution), raised, old(raw), raw)
    {
      if !Enabled(enable) {
        raw := raw.(redactPii := None, redactPiiAudio := None, redactPiiPolicies := None, redactPiiSub := None);
        return None;
      }
      if policies.None? || policies.value == [] {
        return Some(ValueError);
      }
      raw := raw.(redactPii := Some(true), redactPiiAudio := redactAudio, redactPiiPolicies := policies, redactPiiSub := substitution);
      return None;
    }

    method SetContentSafety(enable: Option<bool>, confidence: Option<int>) returns (raised: Option<Exception>)
      modifies this
      ensures Applied(WithContentSafety(old(raw), enable, confidence), raised, old(raw), raw)
    {
      if !Enabled(enable) {
        raw := raw.(contentSafety := None, contentSafetyConfidence := None);
        return None;
      }
      if confidence.Some? && (confidence.value < 25 || confidence.value > 100) {
        return Some(ValueError);
      }
      raw := raw.(contentSafety := Some(true), contentSafetyConfidence := confidence);
      return None;
    }

    /** `set_custom_spelling`: the records are appended one entry at a time. */
    method SetCustomSpelling(replacement: Option<seq<(string, SpellingSource)>>, override: bool)
      modifies this
      ensures raw == WithCustomSpelling(old(raw), replacement, override)
    {
      if replacement.None? {
        raw := raw.(customSpelling := None);
        return;
      }
      if raw.customSpelling.None? || override {
        raw := raw.(customSpelling := Some([]));
      }
      var items := replacement.value;
      ghost var start := raw.customSpelling.value;
      var i := 0;
      assert start + SpellingRecords(items[..0]) == start;
      while i < |items|
        invariant 0 <= i <= |items|
        invariant raw == old(raw).(customSpelling := Some(start + SpellingRecords(items[..i])))
      {
        var (to, source) := items[i];
        var from := if source.One? then [source.word] else source.words;
        assert items[..i + 1][..i] == items[..i];
        assert SpellingRecords(items[..i + 1]) == SpellingRecords(items[..i]) + [Spelling(from, to)];
        assert start + SpellingRecords(items[..i + 1]) == start + SpellingRecords(items[..i]) + [Spelling(from, to)];
        raw := raw.(customSpelling := Some(raw.customSpelling.value + [Spelling(from, to)]));
        i := i + 1;
      }
      assert items[..i] == items;
    }

    method SetSummarize(enable: Option<bool>, model: Option<SummarizationModel>, summaryType: Option<SummarizationType>)
      returns (raised: Option<Exception>)
      modifies this
      ensures Applied(WithSummarize(old(raw), enable, model, summaryType), raised, old(raw), raw)
    {
      if !Enabled(enable) {
        raw := raw.(summarization := None, summaryModel := None, summaryType := None);
        return None;
      }
      if raw.punctuate == Some(false) {
        return Some(ValueError);
      }
      if raw.formatText == Some(false) {
        return Some(ValueError);
      }
      raw := raw.(summarization := Some(true), summaryModel := model, summaryType := summaryType);
      return None;
    }
  }
}
