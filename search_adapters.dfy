/** The two image-search adapters (`search_images_google`,
    `search_images_duckduckgo`): build the provider's request, fetch it with
    the default retry budget, and read the provider's list field. */
module SearchAdapters {
  import opened Wrappers
  import opened JsonValues
  import opened Fetcher

  const GoogleEndpoint := "https://www.googleapis.com/customsearch/v1"
  const SerpApiEndpoint := "https://serpapi.com/search"

  /** Provider A: Google Custom Search, image results, page size 5. */
  function GoogleRequest(query: string, apiKey: string, cseId: string): (r: Request)
    ensures r.url == GoogleEndpoint
    ensures r.params.Keys == {"q", "cx", "key", "searchType", "num"}
    ensures r.params["q"] == query && r.params["cx"] == cseId && r.params["key"] == apiKey
    ensures r.params["searchType"] == "image" && r.params["num"] == "5"
  {
    Request(GoogleEndpoint, map[
      "q" := query, "cx" := cseId, "key" := apiKey, "searchType" := "image", "num" := "5"])
  }

  /** Provider B: SerpAPI proxying DuckDuckGo, JSON output without HTML. */
  function DuckDuckGoRequest(query: string, serpApiKey: string): (r: Request)
    ensures r.url == SerpApiEndpoint
    ensures r.params.Keys == {"q", "engine", "api_key", "no_html", "output"}
    ensures r.params["q"] == query && r.params["engine"] == "duckduckgo"
    ensures r.params["api_key"] == serpApiKey && r.params["no_html"] == "1" && r.params["output"] == "json"
  {
    Request(SerpApiEndpoint, map[
      "q" := query, "engine" := "duckduckgo", "api_key" := serpApiKey,
      "no_html" := "1", "output" := "json"])
  }

  /** `if data: return data.get(field, []) / return []`. A falsy or missing
      body gives the empty list; an object body gives its field or the empty
      list; `.get` on any other truthy JSON value raises AttributeError. */
  function ResultsField(data: Option<Json>, field: string): (r: Outcome<Json>)
    ensures (data.None? || !Truthy(data.value)) ==> r == Returned(Arr([]))
    ensures data.Some? && data.value.Obj? ==>
      r == Returned(if field in data.value.fields then data.value.fields[field] else Arr([]))
    ensures r.Raised? <==> data.Some? && Truthy(data.value) && !data.value.Obj?
  {
    if data.None? || !Truthy(data.value) then Returned(Arr([]))
    else match data.value
      case Obj(fields) => Returned(Get(fields, field, Arr([])))
      case _ => Raised
  }

  /** `search_images_google(query)`. */
  method SearchImagesGoogle(network: Network, query: string, apiKey: string, cseId: string)
    returns (images: Outcome<Json>, requests: nat)
    ensures var t := Fetched(network, GoogleRequest(query, apiKey, cseId), DefaultMaxRetries);
      images == ResultsField(t.data, "items") && requests == t.requests
    ensures requests <= DefaultMaxRetries
  {
    var req := GoogleRequest(query, apiKey, cseId);
    var data, sleeps;
    data, sleeps, requests := MakeRequestWithRetries(network, req, DefaultMaxRetries);
    FetchBounds(network, req, DefaultMaxRetries);
    images := ResultsField(data, "items");
  }

  /** `search_images_duckduckgo(query)`. */
  method SearchImagesDuckDuckGo(network: Network, query: string, serpApiKey: string)
    returns (images: Outcome<Json>, requests: nat)
    ensures var t := Fetched(network, DuckDuckGoRequest(query, serpApiKey), DefaultMaxRetries);
      images == ResultsField(t.data, "images_results") && requests == t.requests
    ensures requests <= DefaultMaxRetries
  {
    var req := DuckDuckGoRequest(query, serpApiKey);
    var data, sleeps;
    data, sleeps, requests := MakeRequestWithRetries(network, req, DefaultMaxRetries);
    FetchBounds(network, req, DefaultMaxRetries);
    images := ResultsField(data, "images_results");
  }
}
