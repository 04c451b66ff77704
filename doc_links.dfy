/**
 * Documentation links and summaries for contextual help
 * (packages/shared/src/docs/doc-links.ts): a closed set of features, each
 * with a path under the documentation site and two translation keys, a table of
 * default English strings, and the accessors built on them.
 */
module DocLinks {
  import opened Wrappers

  const DocBaseUrl: string := "https://agents.craft.do/docs"

  datatype DocFeature =
    | Sources | SourcesApi | SourcesMcp | SourcesLocal | Skills | Statuses
    | Permissions | Labels | Workspaces | Themes | AppSettings | Preferences

  /** Every feature, in declaration order. */
  const AllFeatures: seq<DocFeature> :=
    [Sources, SourcesApi, SourcesMcp, SourcesLocal, Skills, Statuses,
     Permissions, Labels, Workspaces, Themes, AppSettings, Preferences]

  /** `DocInfo`: a path relative to the base URL, a display title and a short summary. */
  datatype DocInfo = DocInfo(path: string, title: string, summary: string)

  /** `DocConfig`: a path and the translation keys of the title and the summary. */
  datatype DocConfig = DocConfig(path: string, titleKey: string, summaryKey: string)

  /** The result of `getDocTranslationKeys`. */
  datatype DocKeys = DocKeys(titleKey: string, summaryKey: string)

  /** `TranslateFunction`. */
  type Translate = string -> string

  /** The feature's key in the `DocFeature` string union. */
  function FeatureName(f: DocFeature): string {
    match f
    case Sources => "sources"
    case SourcesApi => "sources-api"
    case SourcesMcp => "sources-mcp"
    case SourcesLocal => "sources-local"
    case Skills => "skills"
    case Statuses => "statuses"
    case Permissions => "permissions"
    case Labels => "labels"
    case Workspaces => "workspaces"
    case Themes => "themes"
    case AppSettings => "app-settings"
    case Preferences => "preferences"
  }

  /**
   * Distinct features have distinct keys, so rebuilding a record from the
   * configuration table's entries (`Object.fromEntries`) loses no feature.
   */
  lemma FeatureNamesDistinct()
    ensures forall f, g :: FeatureName(f) == FeatureName(g) ==> f == g
  {
  }

  /** `DOC_CONFIGS`. Every path is absolute: a single `/` followed by a segment. */
  function DocConfigOf(f: DocFeature): (r: DocConfig)
    ensures |r.path| > 1 && r.path[0] == '/' && r.path[1] != '/'
  {
    match f
    case Sources => DocConfig("/sources/overview", "docs.sources.title", "docs.sources.summary")
    case SourcesApi => DocConfig("/sources/apis/overview", "docs.sourcesApi.title", "docs.sourcesApi.summary")
    case SourcesMcp => DocConfig("/sources/mcp-servers/overview", "docs.sourcesMcp.title", "docs.sourcesMcp.summary")
    case SourcesLocal => DocConfig("/sources/local-filesystems", "docs.sourcesLocal.title", "docs.sourcesLocal.summary")
    case Skills => DocConfig("/skills/overview", "docs.skills.title", "docs.skills.summary")
    case Statuses => DocConfig("/statuses/overview", "docs.statuses.title", "docs.statuses.summary")
    case Permissions => DocConfig("/core-concepts/permissions", "docs.permissions.title", "docs.permissions.summary")
    case Labels => DocConfig("/labels/overview", "docs.labels.title", "docs.labels.summary")
    case Workspaces => DocConfig("/go-further/workspaces", "docs.workspaces.title", "docs.workspaces.summary")
    case Themes => DocConfig("/go-further/themes", "docs.themes.title", "docs.themes.summary")
    case AppSettings => DocConfig("/reference/config/config-file", "docs.appSettings.title", "docs.appSettings.summary")
    case Preferences => DocConfig("/reference/config/preferences", "docs.preferences.title", "docs.preferences.summary")
  }

  /** `DEFAULT_STRINGS`: the English fallback text for every translation key. */
  const DefaultStrings: map<string, string> := map[
    "docs.sources.title" := "Sources",
    "docs.sources.summary" := "Connect external data like MCP servers, REST APIs, and local filesystems. Sources give your agent tools to access services like GitHub, Linear, or your Obsidian vault.",
    "docs.sourcesApi.title" := "APIs",
    "docs.sourcesApi.summary" := "Connect to any REST API with flexible authentication. Make HTTP requests to external services directly from your conversations.",
    "docs.sourcesMcp.title" := "MCP Servers",
    "docs.sourcesMcp.summary" := "Connect to Model Context Protocol servers for rich tool integrations. MCP servers provide structured access to services like GitHub, Linear, and Notion.",
    "docs.sourcesLocal.title" := "Local Folders",
    "docs.sourcesLocal.summary" := "Give your agent access to local directories like Obsidian vaults, code repositories, or data folders on your machine.",
    "docs.skills.title" := "Skills",
    "docs.skills.summary" := "Reusable instruction sets that teach your agent specialized behaviors. Create a SKILL.md file and invoke it with @mention in your messages.",
    "docs.statuses.title" := "Statuses",
    "docs.statuses.summary" := "Organize conversations into workflow states like Todo, In Progress, and Done. Open statuses appear in your inbox; closed ones move to the archive.",
    "docs.permissions.title" := "Permissions",
    "docs.permissions.summary" := "Control how much autonomy your agent has. Explore mode is read-only, Ask to Edit prompts before changes, and Execute mode runs without prompts.",
    "docs.labels.title" := "Labels",
    "docs.labels.summary" := "Tag sessions with colored labels for organization and filtering. Labels support hierarchical nesting, typed values, and auto-apply rules that extract data from messages using regex patterns.",
    "docs.workspaces.title" := "Workspaces",
    "docs.workspaces.summary" := "Separate configurations for different contexts like personal projects or work. Each workspace has its own sources, skills, statuses, and session history.",
    "docs.themes.title" := "Themes",
    "docs.themes.summary" := "Customize the visual appearance with a 6-color system. Override specific colors in theme.json or install preset themes for complete visual styles.",
    "docs.appSettings.title" := "App Settings",
    "docs.appSettings.summary" := "Configure global app settings like your default model, authentication method, and workspace list. Settings are stored in ~/.craft-agent/config.json.",
    "docs.preferences.title" := "Preferences",
    "docs.preferences.summary" := "Personal preferences like your name, timezone, and language that help the agent personalize responses. Stored in ~/.craft-agent/preferences.json."
  ]

  /** Every configured title key has a default string. */
  lemma TitleKeysHaveDefaults(f: DocFeature)
    ensures DocConfigOf(f).titleKey in DefaultStrings
  {
    match f
    case Sources =>
    case SourcesApi =>
    case SourcesMcp =>
    case SourcesLocal =>
    case Skills =>
    case Statuses =>
    case Permissions =>
    case Labels =>
    case Workspaces =>
    case Themes =>
    case AppSettings =>
    case Preferences =>
  }

  /** Every configured summary key has a default string. */
  lemma SummaryKeysHaveDefaults(f: DocFeature)
    ensures DocConfigOf(f).summaryKey in DefaultStrings
  {
    match f
    case Sources =>
    case SourcesApi =>
    case SourcesMcp =>
    case SourcesLocal =>
    case Skills =>
    case Statuses =>
    case Permissions =>
    case Labels =>
    case Workspaces =>
    case Themes =>
    case AppSettings =>
    case Preferences =>
  }

  /** Every configured translation key has a default string. */
  lemma ConfigKeysHaveDefaults(f: DocFeature)
    ensures DocConfigOf(f).titleKey in DefaultStrings
    ensures DocConfigOf(f).summaryKey in DefaultStrings
  {
    TitleKeysHaveDefaults(f);
    SummaryKeysHaveDefaults(f);
  }

  /** The English `DocInfo` of one feature: the entry `DOCS` builds for it. */
  function DefaultDocInfo(f: DocFeature): (r: DocInfo)
    ensures r.path == DocConfigOf(f).path
    ensures r.title == DefaultStrings[GetDocTranslationKeys(f).titleKey]
    ensures r.summary == DefaultStrings[GetDocTranslationKeys(f).summaryKey]
  {
    ConfigKeysHaveDefaults(f);
    var config := DocConfigOf(f);
    DocInfo(config.path, DefaultStrings[config.titleKey], DefaultStrings[config.summaryKey])
  }

  /** `AllFeatures` lists every feature. */
  lemma AllFeaturesListed()
    ensures forall f: DocFeature :: f in AllFeatures
  {
    forall f: DocFeature ensures f in AllFeatures {
      match f
      case Sources => assert AllFeatures[0] == f;
      case SourcesApi => assert AllFeatures[1] == f;
      case SourcesMcp => assert AllFeatures[2] == f;
      case SourcesLocal => assert AllFeatures[3] == f;
      case Skills => assert AllFeatures[4] == f;
      case Statuses => assert AllFeatures[5] == f;
      case Permissions => assert AllFeatures[6] == f;
      case Labels => assert AllFeatures[7] == f;
      case Workspaces => assert AllFeatures[8] == f;
      case Themes => assert AllFeatures[9] == f;
      case AppSettings => assert AllFeatures[10] == f;
      case Preferences => assert AllFeatures[11] == f;
    }
  }

  /**
   * `DOCS`: the configuration table's entries mapped one by one to English
   * `DocInfo`s and collected back into a record keyed by feature name. It has
   * exactly one entry per feature.
   */
  function Docs(): (m: map<string, DocInfo>)
    ensures forall f :: FeatureName(f) in m && m[FeatureName(f)] == DefaultDocInfo(f)
    ensures forall k :: k in m ==> exists f :: FeatureName(f) == k
  {
    AllFeaturesListed();
    FeatureNamesDistinct();
    map f | f in AllFeatures :: FeatureName(f) := DefaultDocInfo(f)
  }

  /** `getDocUrl`: the base URL followed by the feature's absolute path. */
  function GetDocUrl(f: DocFeature): (r: string)
    ensures |r| > |DocBaseUrl| + 1
    ensures r[..|DocBaseUrl|] == DocBaseUrl && r[|DocBaseUrl|..] == DocConfigOf(f).path
    ensures r[|DocBaseUrl|] == '/' && r[|DocBaseUrl| + 1] != '/'
  {
    DocBaseUrl + DocConfigOf(f).path
  }

  /** `getDocInfo`: the feature's entry in `DOCS`, the English title and summary of its keys. */
  function GetDocInfo(f: DocFeature): (r: DocInfo)
    ensures r == DefaultDocInfo(f)
    ensures r.path == DocConfigOf(f).path
  {
    Docs()[FeatureName(f)]
  }

  /** `getLocalizedDocInfo`: the configured path, with `t` applied to exactly the keys `getDocTranslationKeys` gives. */
  function GetLocalizedDocInfo(f: DocFeature, t: Translate): (r: DocInfo)
    ensures r.path == DocConfigOf(f).path
    ensures r.title == t(GetDocTranslationKeys(f).titleKey)
    ensures r.summary == t(GetDocTranslationKeys(f).summaryKey)
  {
    var config := DocConfigOf(f);
    DocInfo(config.path, t(config.titleKey), t(config.summaryKey))
  }

  /** `getDocTranslationKeys`: the configuration's two keys, both of which have default strings. */
  function GetDocTranslationKeys(f: DocFeature): (r: DocKeys)
    ensures r.titleKey == DocConfigOf(f).titleKey && r.summaryKey == DocConfigOf(f).summaryKey
    ensures r.titleKey in DefaultStrings && r.summaryKey in DefaultStrings
  {
    ConfigKeysHaveDefaults(f);
    var config := DocConfigOf(f);
    DocKeys(config.titleKey, config.summaryKey)
  }

  // ---------------------------------------------------------------------------
  // Properties

  /** Distinct features have distinct paths. */
  lemma PathsDistinct(f: DocFeature, g: DocFeature)
    requires f != g
    ensures DocConfigOf(f).path != DocConfigOf(g).path
  {
  }

  /** Distinct features get distinct URLs. */
  lemma DocUrlsDistinct(f: DocFeature, g: DocFeature)
    requires f != g
    ensures GetDocUrl(f) != GetDocUrl(g)
  {
    PathsDistinct(f, g);
    assert GetDocUrl(f)[|DocBaseUrl|..] != GetDocUrl(g)[|DocBaseUrl|..];
  }

  /**
   * The legacy English table agrees with the localised accessor for every
   * translation function that returns the default strings, whatever it does on
   * other keys.
   */
  lemma DocInfoIsDefaultLocalized(f: DocFeature, t: Translate)
    requires forall k :: k in DefaultStrings ==> t(k) == DefaultStrings[k]
    ensures GetDocInfo(f) == Docs()[FeatureName(f)] == GetLocalizedDocInfo(f, t)
  {
  }

  /** The feature whose configuration uses translation key `k`: the witness for the lemma below. */
  function KeyOwner(k: string): Option<DocFeature> {
    if k in {"docs.sources.title", "docs.sources.summary"} then Some(Sources)
    else if k in {"docs.sourcesApi.title", "docs.sourcesApi.summary"} then Some(SourcesApi)
    else if k in {"docs.sourcesMcp.title", "docs.sourcesMcp.summary"} then Some(SourcesMcp)
    else if k in {"docs.sourcesLocal.title", "docs.sourcesLocal.summary"} then Some(SourcesLocal)
    else if k in {"docs.skills.title", "docs.skills.summary"} then Some(Skills)
    else if k in {"docs.statuses.title", "docs.statuses.summary"} then Some(Statuses)
    else if k in {"docs.permissions.title", "docs.permissions.summary"} then Some(Permissions)
    else if k in {"docs.labels.title", "docs.labels.summary"} then Some(Labels)
    else if k in {"docs.workspaces.title", "docs.workspaces.summary"} then Some(Workspaces)
    else if k in {"docs.themes.title", "docs.themes.summary"} then Some(Themes)
    else if k in {"docs.appSettings.title", "docs.appSettings.summary"} then Some(AppSettings)
    else if k in {"docs.preferences.title", "docs.preferences.summary"} then Some(Preferences)
    else None
  }

  /** The default-string table holds exactly the configured keys, so no default is left unused. */
  lemma DefaultStringsCoverExactlyTheConfiguredKeys(k: string)
    ensures k in DefaultStrings <==> exists f :: k == DocConfigOf(f).titleKey || k == DocConfigOf(f).summaryKey
  {
    if k in DefaultStrings {
      var f := KeyOwner(k).value;
      assert k == DocConfigOf(f).titleKey || k == DocConfigOf(f).summaryKey;
    } else {
      forall f ensures k != DocConfigOf(f).titleKey && k != DocConfigOf(f).summaryKey {
        ConfigKeysHaveDefaults(f);
      }
    }
  }
}
