# Image finder core, modelled in Dafny

The program reads a news text, asks a language model for search keywords,
searches images through Google Custom Search or through SerpAPI's DuckDuckGo
engine, asks the language model to score each image's relevance, and reports
the best one. This project models its decision logic:

- `Fetcher` (fetcher.dfy): `make_request_with_retries`, the GET with up to
  `max_retries` attempts. A 429 answer (Too Many Requests, section 4 of
  RFC 6585) and every `RequestException` (transport error, a 4xx/5xx status
  from `raise_for_status`, a body that is not JSON) sleep `2^attempt` seconds
  and retry. The network is an oracle `(request, attempt) -> outcome`, and sleeps
  are recorded as a list of durations.
- `SearchAdapters` (search_adapters.dfy): the two providers' requests, and how
  the fetched body becomes the image list (`data.get(field, [])` when the body is
  truthy, `[]` otherwise).
- `Relevance` (relevance.dfy): `evaluate_relevance`. It resolves each
  candidate's URL (`link`, else `thumbnail`), skips candidates with neither, and
  scores the rest through the language-model oracle with parse-or-zero. It keeps
  a running best with strict `>`. Its result is specified as the first candidate
  that attains the maximum score among usable candidates.
- `Orchestrator` (orchestrator.dfy): `main`'s credential check, the search and
  scoring steps, and the report (no images, no relevant image, a selected image).
  A missing credential is a `ConfigError` report in place of `sys.exit(1)`.
- `JsonValues` and `Wrappers`: decoded JSON with Python truthiness and `dict.get`;
  `Option` and `Outcome` (a value, or an escaping exception).
- `Scenarios` (scenarios.dfy): client methods that rely only on the contracts. They
  cover a fetch answered 429, 429, 200; a fetch that is always rate-limited; the
  scorer alone on two images scored 7 and 9, on a tie, and on one URL listed
  twice; and whole runs for an empty DuckDuckGo result and a missing OpenAI key.

Behaviours of the code that the model keeps:
- both providers resolve the URL as `link`, else `thumbnail` (main.py:89);
- a sleep also follows the last failed attempt (main.py:27, 33);
- a truthy body that is not a JSON object makes `data.get` raise
  (main.py:62, 77), and a truthy image list that is not a list of objects makes
  the scoring loop raise (main.py:88-89); both are `Raised` / `Crashed` here.
  For object bodies the adapters never raise.
- the language model samples, so each scoring call is its own oracle
  question: `Relevance.Judge.llm` also receives the number of scoring calls made
  before it, and the same URL listed twice may get two different scores.

## Model

| member | source | states |
|---|---|---|
| Fetcher.Classify | main.py:24-31 | an attempt delivers its body iff it is a response with a status outside 400-599 and a JSON body; it counts as rate-limited iff the status is 429; everything else is a retried failure |
| Fetcher.FirstDeliveryIsFirst | main.py:22-30 | the attempt the fetch returns from is exactly the first delivering attempt within the budget, and there is none iff every attempt in the budget fails |
| Fetcher.RetrySuccess | main.py:22-30 | if attempts 0..k-1 fail and attempt k delivers, with k < max_retries, the result is attempt k's body after sleeps 2^0..2^(k-1) and exactly k+1 requests |
| Fetcher.RetryExhaustion | main.py:22-35 | if no attempt within max_retries delivers, the result is None after max(max_retries, 0) requests, each followed by a sleep of 2^attempt, the last one included |
| Fetcher.FetchBounds | main.py:22-35 | at most max(max_retries, 0) requests; one sleep per failed request; no request at all when max_retries <= 0 |
| Fetcher.BackoffTotal | main.py:27-33 | the sleeps after n failures total 2^n - 1 seconds |
| Fetcher.MakeRequestWithRetries | main.py:20-35 | the loop returns exactly the body, sleeps and request count that the specification `Fetched` gives |
| SearchAdapters.GoogleRequest | main.py:52-59 | the Google request goes to the Custom Search endpoint with exactly the parameters q=query, cx=CSE id, key=API key, searchType=image and num=5 |
| SearchAdapters.DuckDuckGoRequest | main.py:67-74 | the SerpAPI request carries exactly the parameters q=query, engine=duckduckgo, api_key=SerpAPI key, no_html=1 and output=json |
| SearchAdapters.ResultsField | main.py:60-63 | a missing or falsy body gives the empty list; an object body gives its list field or the empty list; the call raises exactly when the body is truthy and not an object |
| SearchAdapters.SearchImagesGoogle | main.py:50-63 | the Google adapter returns the `items` field of the fetched body and makes at most 5 requests |
| SearchAdapters.SearchImagesDuckDuckGo | main.py:65-78 | the DuckDuckGo adapter returns the `images_results` field of the fetched body and makes at most 5 requests |
| Relevance.ResolveUrl | main.py:89-91 | the URL is `link` when truthy, else `thumbnail`; it is usable iff one of the two is truthy |
| Relevance.NoCallsIffNoneUsable | main.py:88-99 | no model call is made iff no candidate has a usable URL |
| Relevance.CallsPerUsableCandidate | main.py:88-99 | the number of model calls equals the number of candidates with a usable URL |
| Relevance.FirstBestExists | main.py:86-110 | when some candidate is usable, a first maximum among usable candidates exists |
| Relevance.FirstBestUnique | main.py:104-109 | the first maximum is unique, so the selection is determined |
| Relevance.LaterTieLoses | main.py:104-105 | a later candidate whose score only equals an earlier usable one's is never selected |
| Relevance.MalformedStillCompetes | main.py:100-104 | unparsable score text scores exactly 0 and the candidate still competes: it wins when every other usable candidate scores below 0 |
| Relevance.EvaluateRelevance | main.py:80-110 | the model is asked about the usable URLs in order, each call numbered; the result is None iff no candidate is usable; otherwise it is the URL and title (or "Нет описания") of the first candidate attaining the maximum score |
| Orchestrator.CheckConfig | main.py:115-128 | a missing OpenAI key fails first whatever the engine; google is ready iff both Google credentials are present and otherwise reports missing Google credentials; duckduckgo is ready iff the SerpAPI key is present and otherwise reports it missing; any other engine value fails as invalid |
| Orchestrator.UnselectedCredentialsIgnored | main.py:118-128 | the credentials of the provider not selected do not affect the check |
| Orchestrator.AsCandidates | main.py:88-89 | iterating the image list and reading each item with `.get` succeeds iff the value is a list of objects |
| Orchestrator.Run | main.py:112-160 | a bad configuration ends with its ConfigError and makes no keyword call, no request and no scoring call; otherwise one keyword call, exactly the fetch's request count (at most 5); a falsy image list reports no images; an unusable list reports no relevant image; neither makes a scoring call; otherwise the scoring calls are the usable URLs and the first best image is reported |

## Left out

- `extract_keywords` (main.py:37-48) is one language-model call followed by
  `strip`; it is the oracle `keywords` of `Orchestrator.Run`.
- The language model, the prompt templates and Python's `float()` grammar are
  oracles (`Relevance.Judge`): the scorer maps text, URL and call number to
  answer text, and the parser maps text to an optional number.
- Floating point: scores are `real`, and "no best yet" replaces the `-inf`
  sentinel. NaN and infinities are not modelled. In the code, a score parsed as
  `-inf` would never beat the sentinel; the model selects such a candidate.
- HTTP through `requests` and JSON decoding are the network oracle. The model
  assumes a `requests` version whose JSON decoding error is a `RequestException`.
  Query parameters whose value is None, which `requests` drops, cannot occur
  after the configuration check.
- `load_dotenv`, `os.getenv`, `input`, every `print` and the process exit code are
  I/O: configuration is a record, the input text a parameter, and an exit a
  report.
- `time.sleep` is not performed; only its durations are recorded.
- The OpenAI-key checks inside `extract_keywords` and `evaluate_relevance`
  (main.py:39-41, 82-84) and `main`'s final `else` (main.py:144-146) cannot be
  reached after `main`'s own check; they are not modelled separately.
- Orchestrator.Run: when a non-object item appears part-way through the list, the
  code has already made model calls for the earlier items before it raises;
  the model reports `Crashed` and records no calls.
