/** Client methods that rely only on the contracts of the other modules:
    the fetch's retry schedule (served after two 429s; always rate-limited),
    the scorer on its own (two images scored 7 and 9; a tie; the same URL
    asked twice), and whole runs of `main` (an empty DuckDuckGo result; a
    missing OpenAI key). */
module Scenarios {
  import opened Wrappers
  import opened JsonValues
  import opened Fetcher
  import opened Relevance
  import opened Orchestrator

  /** Two 429 answers, then a 200 with a body. */
  method RateLimitedTwiceThenServed(req: Request) {
    var body := Obj(map["items" := Arr([])]);
    var network: Network := (r, k) => if k < 2 then Response(429, None) else Response(200, Some(body));
    assert !Delivers(network, req, 0) && !Delivers(network, req, 1) && Delivers(network, req, 2);
    RetrySuccess(network, req, DefaultMaxRetries, 2);
    var data, sleeps, requests := MakeRequestWithRetries(network, req, DefaultMaxRetries);
    assert data == Some(body);
    assert sleeps == [1, 2];
    assert requests == 3;
  }

  /** Every attempt is rate-limited: no data, five requests, five sleeps. */
  method AlwaysRateLimited(req: Request) {
    var network: Network := (r, k) => Response(429, None);
    RetryExhaustion(network, req, DefaultMaxRetries);
    var data, sleeps, requests := MakeRequestWithRetries(network, req, DefaultMaxRetries);
    assert data == None && requests == 5;
    assert sleeps == [1, 2, 4, 8, 16];
  }

  function Item(link: string, title: string): Candidate {
    map["link" := Str(link), "title" := Str(title)]
  }

  /** Two results scored 7 and 9: the second is selected, after two model calls. */
  method WildfiresScored() {
    var images := [Item("http://a/1.jpg", "Fire1"), Item("http://a/2.jpg", "Fire2")];
    var judge := Judge(
      (t, u, n) => if u == Str("http://a/1.jpg") then "7" else "9",
      s => if s == "7" then Some(7.0) else if s == "9" then Some(9.0) else None);
    var text := "Wildfires spread across the region";
    assert Score(judge, text, images, 0) == 7.0 && Score(judge, text, images, 1) == 9.0;
    var best, asked := EvaluateRelevance(images, text, judge);
    assert !IsFirstBest(images, judge, text, 0);
    assert best == Some(BestImage(Str("http://a/2.jpg"), Str("Fire2")));
    CallsPerUsableCandidate(images);
    assert |asked| == 2;
  }

  /** Two results with equal scores: the first is kept. */
  method TieKeepsFirst() {
    var images := [Item("http://a/1.jpg", "Fire1"), Item("http://a/2.jpg", "Fire2")];
    var judge := Judge((t, u, n) => "8", s => Some(8.0));
    var best, asked := EvaluateRelevance(images, "", judge);
    LaterTieLoses(images, judge, "", 0, 1);
    assert best == Some(BestImage(Str("http://a/1.jpg"), Str("Fire1")));
  }

  /** The same URL listed twice: each listing is a separate model call, and a
      higher second answer selects the second listing with its own title. */
  method SameUrlAskedTwice() {
    var images := [Item("http://a/1.jpg", "First"), Item("http://a/1.jpg", "Second")];
    var judge := Judge((t, u, n) => if n == 0 then "5" else "8",
      s => if s == "5" then Some(5.0) else if s == "8" then Some(8.0) else None);
    assert images[..1] == [images[0]];
    assert Score(judge, "", images, 0) == 5.0 && Score(judge, "", images, 1) == 8.0;
    var best, asked := EvaluateRelevance(images, "", judge);
    assert !IsFirstBest(images, judge, "", 0);
    assert best == Some(BestImage(Str("http://a/1.jpg"), Str("Second")));
  }

  /** DuckDuckGo configured and the provider finds nothing: no scoring call. */
  method NothingOnDuckDuckGo(text: string, keywords: string -> string, judge: Judge) {
    var cfg := Config(Some("sk"), Some("duckduckgo"), None, None, Some("serp"));
    var network: Network := (r, k) => Response(200, Some(Obj(map["images_results" := Arr([])])));
    assert Delivers(network, ProviderRequest(cfg, DuckDuckGo, keywords(text)), 0);
    RetrySuccess(network, ProviderRequest(cfg, DuckDuckGo, keywords(text)), DefaultMaxRetries, 0);
    var report, keywordCalls, requests, asked := Run(cfg, text, keywords, network, judge);
    assert report == NoImages && asked == [];
  }

  /** No OpenAI key: fatal before any request or model call. */
  method NoOpenAiKey(text: string, keywords: string -> string, network: Network, judge: Judge) {
    var cfg := Config(None, Some("google"), Some("gk"), Some("cse"), Some("serp"));
    var report, keywordCalls, requests, asked := Run(cfg, text, keywords, network, judge);
    assert report == ConfigError(MissingOpenAiKey) && keywordCalls == 0 && requests == 0 && asked == [];
  }
}
