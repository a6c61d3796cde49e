/** `main`: the startup credential check, then keywords, search and scoring,
    and the three-way report. Environment variables arrive as a record;
    `sys.exit(1)` becomes a `ConfigError` report. */
module Orchestrator {
  import opened Wrappers
  import opened JsonValues
  import opened Fetcher
  import opened SearchAdapters
  import opened Relevance

  /** The values `os.getenv` returns (None when a variable is unset). */
  datatype Config = Config(
    openAiKey: Option<string>,
    searchEngine: Option<string>,
    googleApiKey: Option<string>,
    googleCseId: Option<string>,
    serpApiKey: Option<string>)

  datatype Engine = Google | DuckDuckGo

  datatype ConfigFault =
    | MissingOpenAiKey
    | MissingGoogleCredentials
    | MissingSerpApiKey
    | InvalidSearchEngine

  /** `not X` is false for a set, non-empty variable. */
  predicate Present(v: Option<string>) {
    v.Some? && v.value != ""
  }

  datatype Checked = Ready(engine: Engine) | Fatal(fault: ConfigFault)

  /** The checks at the top of `main`, in their order. */
  function CheckConfig(cfg: Config): (r: Checked)
    ensures !Present(cfg.openAiKey) ==> r == Fatal(MissingOpenAiKey)
    ensures r == Ready(Google) <==>
      Present(cfg.openAiKey) && cfg.searchEngine == Some("google") &&
      Present(cfg.googleApiKey) && Present(cfg.googleCseId)
    ensures r == Ready(DuckDuckGo) <==>
      Present(cfg.openAiKey) && cfg.searchEngine == Some("duckduckgo") && Present(cfg.serpApiKey)
    ensures r == Fatal(MissingGoogleCredentials) <==>
      Present(cfg.openAiKey) && cfg.searchEngine == Some("google") &&
      !(Present(cfg.googleApiKey) && Present(cfg.googleCseId))
    ensures r == Fatal(MissingSerpApiKey) <==>
      Present(cfg.openAiKey) && cfg.searchEngine == Some("duckduckgo") && !Present(cfg.serpApiKey)
    ensures r == Fatal(InvalidSearchEngine) <==>
      Present(cfg.openAiKey) && cfg.searchEngine != Some("google") && cfg.searchEngine != Some("duckduckgo")
  {
    if !Present(cfg.openAiKey) then Fatal(MissingOpenAiKey)
    else if cfg.searchEngine == Some("google") then
      if !Present(cfg.googleApiKey) || !Present(cfg.googleCseId) then Fatal(MissingGoogleCredentials)
      else Ready(Google)
    else if cfg.searchEngine == Some("duckduckgo") then
      if !Present(cfg.serpApiKey) then Fatal(MissingSerpApiKey)
      else Ready(DuckDuckGo)
    else Fatal(InvalidSearchEngine)
  }

  /** The credentials of a provider are unused unless it is the selected one:
      the check does not depend on them. */
  lemma UnselectedCredentialsIgnored(cfg: Config, other: Config)
    requires cfg.openAiKey == other.openAiKey && cfg.searchEngine == other.searchEngine
    requires cfg.searchEngine == Some("google") ==>
      cfg.googleApiKey == other.googleApiKey && cfg.googleCseId == other.googleCseId
    requires cfg.searchEngine == Some("duckduckgo") ==> cfg.serpApiKey == other.serpApiKey
    ensures CheckConfig(cfg) == CheckConfig(other)
  {
  }

  /** How a run ends. `Crashed` is an exception escaping `main`: the
      search result or one of its items is not the JSON shape the code reads. */
  datatype Report =
    | ConfigError(fault: ConfigFault)
    | NoImages
    | NoRelevantImage
    | Selected(image: BestImage)
    | Crashed

  /** Iterating `images` and calling `.get` on each item succeeds only for a
      list of objects. */
  function AsCandidates(images: Json): (r: Option<seq<Candidate>>)
    ensures r.Some? <==> images.Arr? && forall e :: e in images.elems ==> e.Obj?
    ensures r.Some? ==> (|r.value| == |images.elems| &&
      forall i :: 0 <= i < |r.value| ==> images.elems[i] == Obj(r.value[i]))
  {
    if images.Arr? && forall e :: e in images.elems ==> e.Obj? then
      Some(seq(|images.elems|, i requires 0 <= i < |images.elems| => images.elems[i].fields))
    else None
  }

  /** The request the selected provider sends for a query. */
  function ProviderRequest(cfg: Config, engine: Engine, query: string): Request
    requires CheckConfig(cfg) == Ready(engine)
  {
    match engine
    case Google => GoogleRequest(query, cfg.googleApiKey.value, cfg.googleCseId.value)
    case DuckDuckGo => DuckDuckGoRequest(query, cfg.serpApiKey.value)
  }

  function ProviderField(engine: Engine): string {
    match engine
    case Google => "items"
    case DuckDuckGo => "images_results"
  }

  /** What the search step returns for a run with a valid configuration. */
  function SearchOutcome(cfg: Config, engine: Engine, query: string, network: Network): Outcome<Json>
    requires CheckConfig(cfg) == Ready(engine)
  {
    ResultsField(Fetched(network, ProviderRequest(cfg, engine, query), DefaultMaxRetries).data,
                 ProviderField(engine))
  }

  /** `main()`: `text` is the line read from standard input, `keywords` the
      keyword extractor (one model call, stripped). `keywordCalls` counts the
      keyword-extraction calls, `requests` the GET attempts, `asked` the URLs
      of the scoring calls. */
  method Run(cfg: Config, text: string, keywords: string -> string, network: Network, judge: Judge)
    returns (report: Report, keywordCalls: nat, requests: nat, asked: seq<Json>)
    ensures CheckConfig(cfg).Fatal? ==>
      report == ConfigError(CheckConfig(cfg).fault) &&
      keywordCalls == 0 && requests == 0 && asked == []
    ensures CheckConfig(cfg).Ready? ==>
      !report.ConfigError? && keywordCalls == 1 && requests <= DefaultMaxRetries &&
      requests == Fetched(network,
        ProviderRequest(cfg, CheckConfig(cfg).engine, keywords(text)), DefaultMaxRetries).requests
    ensures CheckConfig(cfg).Ready? ==>
      var found := SearchOutcome(cfg, CheckConfig(cfg).engine, keywords(text), network);
      (report == NoImages <==> found.Returned? && !Truthy(found.value)) &&
      (report == Crashed <==>
        found.Raised? || (Truthy(found.value) && AsCandidates(found.value).None?)) &&
      (report == NoRelevantImage <==>
        found.Returned? && Truthy(found.value) && AsCandidates(found.value).Some? &&
        NoneUsable(AsCandidates(found.value).value)) &&
      (report.Selected? ==> asked == UsableUrls(AsCandidates(found.value).value)) &&
      (report.Selected? ==>
        exists i :: IsFirstBest(AsCandidates(found.value).value, judge, text, i) &&
          report.image == Chosen(AsCandidates(found.value).value[i]))
    ensures !report.Selected? ==> asked == []
  {
    var checked := CheckConfig(cfg);
    if checked.Fatal? {
      return ConfigError(checked.fault), 0, 0, [];
    }
    var engine := checked.engine;
    var query := keywords(text);
    keywordCalls := 1;
    var images: Outcome<Json>;
    match engine {
      case Google =>
        images, requests := SearchImagesGoogle(network, query, cfg.googleApiKey.value, cfg.googleCseId.value);
      case DuckDuckGo =>
        images, requests := SearchImagesDuckDuckGo(network, query, cfg.serpApiKey.value);
    }
    asked := [];
    if images.Raised? {
      report := Crashed;
      return;
    }
    if !Truthy(images.value) {
      report := NoImages;
      return;
    }
    var candidates := AsCandidates(images.value);
    if candidates.None? {
      report := Crashed;
      return;
    }
    var best;
    best, asked := EvaluateRelevance(candidates.value, text, judge);
    if best.Some? {
      report := Selected(best.value);
    } else {
      report := NoRelevantImage;
    }
  }
}
