/** Reading the stored AI configuration (`getAIConfig` and `saveAIConfig` in
    services/storage.ts). The stored value is whatever `JSON.parse` made of the saved
    text; three shapes have existed over time and are told apart in a fixed order:
    the flat legacy shape (a top-level `apiKey` and no `gemini` object), the shape
    without a `priority` list, and the current shape. */
module AIConfigStore {
  import opened Types

  const DefaultBailianBaseURL: string := "https://dashscope.aliyuncs.com/compatible-mode/v1"

  /** A provider object as stored: every field may be missing. */
  datatype StoredGemini = StoredGemini(enabled: Option<bool>, apiKey: Option<string>, model: Option<string>)

  datatype StoredBailian = StoredBailian(
    enabled: Option<bool>,
    apiKey: Option<string>,
    baseURL: Option<string>,
    model: Option<string>)

  /** The parsed object. `provider`, `apiKey`, `model` and `baseURL` only occur at the top
      level in the older shapes. */
  datatype StoredConfig = StoredConfig(
    enabled: Option<bool>,
    priority: Option<seq<AIProvider>>,
    provider: Option<string>,
    apiKey: Option<string>,
    model: Option<string>,
    baseURL: Option<string>,
    gemini: Option<StoredGemini>,
    bailian: Option<StoredBailian>)

  /** What local storage holds under the AI configuration key: nothing, text that is not a
      JSON object (so that `JSON.parse` or the `in` test throws), or a parsed object. */
  datatype RawConfig = Absent | Unparseable | Parsed(stored: StoredConfig)

  function DefaultConfig(): AIConfig {
    AIConfig(
      true,
      [Gemini, Bailian],
      GeminiSettings(true, "", ""),
      BailianSettings(true, "", DefaultBailianBaseURL, ""))
  }

  /** A stored string, or the fallback when it is missing or empty. */
  function OrString(x: Option<string>, fallback: string): string {
    if x.Some? && x.value != "" then x.value else fallback
  }

  /** The priority an older configuration implies: Bailian first exactly when it was the
      selected provider. */
  function LegacyPriority(provider: Option<string>): seq<AIProvider> {
    if provider == Some("bailian") then [Bailian, Gemini] else [Gemini, Bailian]
  }

  /** Migration 1: the flat legacy shape. */
  function FromLegacy(p: StoredConfig): AIConfig {
    var isGemini := p.provider == Some("gemini");
    var isBailian := p.provider == Some("bailian");
    AIConfig(
      p.enabled.GetOr(false),
      LegacyPriority(p.provider),
      GeminiSettings(true, if isGemini then p.apiKey.GetOr("") else "",
                     if isGemini then OrString(p.model, "") else ""),
      BailianSettings(true, if isBailian then p.apiKey.GetOr("") else "",
                      OrString(p.baseURL, DefaultBailianBaseURL),
                      if isBailian then OrString(p.model, "") else ""))
  }

  /** The Gemini settings of a configuration without a priority list: every stored field
      over the default, and the provider switched on. */
  function MergeGemini(d: GeminiSettings, s: Option<StoredGemini>): GeminiSettings {
    match s
    case None => d.(enabled := true)
    case Some(g) => GeminiSettings(true, g.apiKey.GetOr(d.apiKey), g.model.GetOr(d.model))
  }

  function MergeBailian(d: BailianSettings, s: Option<StoredBailian>): BailianSettings {
    match s
    case None => d.(enabled := true)
    case Some(b) =>
      BailianSettings(true, b.apiKey.GetOr(d.apiKey), b.baseURL.GetOr(d.baseURL), b.model.GetOr(d.model))
  }

  /** Migration 2: no `priority` list yet. */
  function FromNoPriority(p: StoredConfig): AIConfig {
    var d := DefaultConfig();
    AIConfig(
      p.enabled.GetOr(d.enabled),
      LegacyPriority(p.provider),
      MergeGemini(d.gemini, p.gemini),
      MergeBailian(d.bailian, p.bailian))
  }

  /** A stored provider object that replaces the default one wholesale: a field it lacks is
      `undefined` in the result, which every reader treats like its falsy value. */
  function WholeGemini(g: StoredGemini): GeminiSettings {
    GeminiSettings(g.enabled.GetOr(false), g.apiKey.GetOr(""), g.model.GetOr(""))
  }

  function WholeBailian(b: StoredBailian): BailianSettings {
    BailianSettings(b.enabled.GetOr(false), b.apiKey.GetOr(""), b.baseURL.GetOr(""), b.model.GetOr(""))
  }

  /** The current shape: every stored top-level field wins over the default. */
  function FromCurrent(p: StoredConfig): AIConfig
    requires p.priority.Some?
  {
    var d := DefaultConfig();
    AIConfig(
      p.enabled.GetOr(d.enabled),
      p.priority.value,
      if p.gemini.Some? then WholeGemini(p.gemini.value) else d.gemini,
      if p.bailian.Some? then WholeBailian(p.bailian.value) else d.bailian)
  }

  predicate IsLegacy(p: StoredConfig) { p.apiKey.Some? && p.gemini.None? }

  /** `getAIConfig`: total, never throws. */
  function Resolve(raw: RawConfig): AIConfig {
    match raw
    case Absent => DefaultConfig()
    case Unparseable => DefaultConfig()
    case Parsed(p) =>
      if IsLegacy(p) then FromLegacy(p)
      else if p.priority.None? then FromNoPriority(p)
      else FromCurrent(p)
  }

  /** What saving a configuration and reading it back as JSON yields: every field is written. */
  function Serialize(c: AIConfig): StoredConfig {
    StoredConfig(
      Some(c.enabled), Some(c.priority), None, None, None, None,
      Some(StoredGemini(Some(c.gemini.enabled), Some(c.gemini.apiKey), Some(c.gemini.model))),
      Some(StoredBailian(Some(c.bailian.enabled), Some(c.bailian.apiKey), Some(c.bailian.baseURL),
                         Some(c.bailian.model))))
  }

  // ---------------------------------------------------------------------------
  // Properties

  /** Nothing stored, or something that is not a JSON object, gives the default: AI on,
      Gemini before Bailian, both providers on, no keys. */
  lemma MissingGivesDefault(raw: RawConfig)
    requires !raw.Parsed?
    ensures var c := Resolve(raw);
      && c.enabled && c.priority == [Gemini, Bailian]
      && c.gemini.enabled && c.bailian.enabled
      && c.gemini.apiKey == "" && c.bailian.apiKey == ""
      && c.bailian.baseURL == DefaultBailianBaseURL
  {
  }

  /** The flat legacy shape: the key and the model go to the provider `provider` names and
      the other one gets "", both providers are on, Bailian comes first exactly when it was
      the provider, and AI is on only if it was on before. */
  lemma LegacyMigration(p: StoredConfig)
    requires IsLegacy(p)
    ensures var c := Resolve(Parsed(p));
      && c.gemini.enabled && c.bailian.enabled
      && (c.priority[0] == Bailian <==> p.provider == Some("bailian"))
      && multiset(c.priority) == multiset{Gemini, Bailian}
      && c.enabled == (p.enabled == Some(true))
      && (p.provider == Some("gemini") ==>
            && c.gemini.apiKey == p.apiKey.value && c.gemini.model == OrString(p.model, "")
            && c.bailian.apiKey == "" && c.bailian.model == "")
      && (p.provider == Some("bailian") ==>
            && c.bailian.apiKey == p.apiKey.value && c.bailian.model == OrString(p.model, "")
            && c.gemini.apiKey == "" && c.gemini.model == "")
      && (p.provider != Some("gemini") && p.provider != Some("bailian") ==>
            c.gemini.apiKey == "" && c.bailian.apiKey == "" && c.gemini.model == "" && c.bailian.model == "")
      && c.bailian.baseURL == OrString(p.baseURL, DefaultBailianBaseURL)
  {
  }

  /** The shape without `priority`: Bailian first exactly when `provider` names it, both
      providers forced on, every stored provider field kept and every missing one taken
      from the default. */
  lemma NoPriorityMigration(p: StoredConfig)
    requires !IsLegacy(p) && p.priority.None?
    ensures var c := Resolve(Parsed(p));
      && (c.priority == [Bailian, Gemini] <==> p.provider == Some("bailian"))
      && (c.priority == [Gemini, Bailian] <==> p.provider != Some("bailian"))
      && c.gemini.enabled && c.bailian.enabled
      && c.enabled == p.enabled.GetOr(true)
      && (p.gemini.None? ==> c.gemini.apiKey == "" && c.gemini.model == "")
      && (p.gemini.Some? ==>
            && c.gemini.apiKey == p.gemini.value.apiKey.GetOr("")
            && c.gemini.model == p.gemini.value.model.GetOr(""))
      && (p.bailian.None? ==>
            && c.bailian.apiKey == "" && c.bailian.model == ""
            && c.bailian.baseURL == DefaultBailianBaseURL)
      && (p.bailian.Some? ==>
            && c.bailian.apiKey == p.bailian.value.apiKey.GetOr("")
            && c.bailian.baseURL == p.bailian.value.baseURL.GetOr(DefaultBailianBaseURL)
            && c.bailian.model == p.bailian.value.model.GetOr(""))
  {
  }

  /** The current shape is a shallow merge over the default: each stored top-level field
      wins, each missing one is the default's, and a stored provider object replaces the
      default's whole, its missing fields reading as falsy. */
  lemma CurrentShapeMerge(p: StoredConfig)
    requires !IsLegacy(p) && p.priority.Some?
    ensures var c := Resolve(Parsed(p)); var d := DefaultConfig();
      && c.priority == p.priority.value
      && c.enabled == (if p.enabled.Some? then p.enabled.value else d.enabled)
      && (p.gemini.None? ==> c.gemini == d.gemini)
      && (p.bailian.None? ==> c.bailian == d.bailian)
      && (p.gemini.Some? ==>
            var g := p.gemini.value;
            && c.gemini.enabled == (g.enabled == Some(true))
            && c.gemini.apiKey == g.apiKey.GetOr("") && c.gemini.model == g.model.GetOr(""))
      && (p.bailian.Some? ==>
            var b := p.bailian.value;
            && c.bailian.enabled == (b.enabled == Some(true))
            && c.bailian.apiKey == b.apiKey.GetOr("") && c.bailian.baseURL == b.baseURL.GetOr("")
            && c.bailian.model == b.model.GetOr(""))
  {
  }

  /** Saving a configuration and reading it back gives the same configuration. */
  lemma SaveThenResolve(c: AIConfig)
    ensures Resolve(Parsed(Serialize(c))) == c
  {
  }

  /** Reading, saving unchanged and reading again is stable. */
  lemma ResolveSaveStable(raw: RawConfig)
    ensures Resolve(Parsed(Serialize(Resolve(raw)))) == Resolve(raw)
  {
    SaveThenResolve(Resolve(raw));
  }
}
