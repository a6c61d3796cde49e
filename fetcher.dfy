/** The retry-with-backoff HTTP GET (`make_request_with_retries`).
    The network is an oracle: `network(req, k)` is what the k-th attempt
    (counting from 0) of a GET for `req` yields. Sleeping is recorded,
    not performed: each entry of `sleeps` is one `time.sleep` duration in seconds. */
module Fetcher {
  import opened Wrappers
  import opened JsonValues

  /** A GET request: endpoint and query parameters (already rendered as text). */
  datatype Request = Request(url: string, params: map<string, string>)

  /** What one attempt yields: the transport raised, or a response arrived.
      `body` is None when the response text is not valid JSON. */
  datatype Attempt = TransportError | Response(status: int, body: Option<Json>)

  type Network = (Request, nat) -> Attempt

  /** HTTP 429 Too Many Requests (section 4 of RFC 6585). */
  const TooManyRequests := 429

  /** The default `max_retries` of the source. */
  const DefaultMaxRetries := 5

  /** How the loop body treats one attempt: a 429 is retried; so is every
      RequestException (transport error, `raise_for_status` on a 4xx/5xx
      status, JSON decoding error); anything else returns the decoded body. */
  datatype Verdict = RateLimited | Failed | Delivered(body: Json)

  function Classify(a: Attempt): (v: Verdict)
    ensures v.Delivered? <==>
      a.Response? && !(400 <= a.status < 600) && a.body.Some?
    ensures v.Delivered? ==> v.body == a.body.value
    ensures v == RateLimited <==> a.Response? && a.status == TooManyRequests
  {
    match a
    case TransportError => Failed
    case Response(status, body) =>
      if status == TooManyRequests then RateLimited
      else if 400 <= status < 600 then Failed
      else if body.None? then Failed
      else Delivered(body.value)
  }

  predicate Delivers(network: Network, req: Request, k: nat) {
    Classify(network(req, k)).Delivered?
  }

  function Pow2(n: nat): (r: nat)
    ensures r >= 1
  {
    if n == 0 then 1 else 2 * Pow2(n - 1)
  }

  /** The sleeps after n failed attempts: 2^0, 2^1, ..., 2^(n-1). */
  function Backoff(n: nat): (r: seq<nat>)
    ensures |r| == n
    ensures forall k :: 0 <= k < n ==> r[k] == Pow2(k)
  {
    seq(n, k requires 0 <= k < n => Pow2(k))
  }

  function Sum(s: seq<nat>): nat {
    if s == [] then 0 else Sum(s[..|s| - 1]) + s[|s| - 1]
  }

  /** Number of attempts the loop makes when nothing is delivered:
      `range(max_retries)` is empty for a negative bound. */
  function Budget(maxRetries: int): nat {
    if maxRetries < 0 then 0 else maxRetries
  }

  /** The first attempt in [from, maxRetries) that delivers a body, if any. */
  function FirstDelivery(network: Network, req: Request, from: nat, maxRetries: int): (r: Option<nat>)
    ensures r.Some? ==> from <= r.value < Budget(maxRetries) && Delivers(network, req, r.value)
    decreases Budget(maxRetries) - from
  {
    if from >= Budget(maxRetries) then None
    else if Delivers(network, req, from) then Some(from)
    else FirstDelivery(network, req, from + 1, maxRetries)
  }

  /** Everything a call of the fetch produces. */
  datatype Trace = Trace(data: Option<Json>, sleeps: seq<nat>, requests: nat)

  /** The specification of the fetch: if attempt k is the first to deliver,
      the body of attempt k after k sleeps and k + 1 requests; otherwise
      None after one sleep per attempt. */
  function Fetched(network: Network, req: Request, maxRetries: int): Trace {
    match FirstDelivery(network, req, 0, maxRetries)
    case Some(k) => Trace(Some(Classify(network(req, k)).body), Backoff(k), k + 1)
    case None => Trace(None, Backoff(Budget(maxRetries)), Budget(maxRetries))
  }

  /** FirstDelivery finds exactly the first delivering attempt within the budget. */
  lemma {:induction false} FirstDeliveryIsFirst(network: Network, req: Request, from: nat, maxRetries: int)
    ensures forall k :: FirstDelivery(network, req, from, maxRetries) == Some(k) <==>
      (from <= k < Budget(maxRetries) && Delivers(network, req, k) &&
       forall j :: from <= j < k ==> !Delivers(network, req, j))
    ensures FirstDelivery(network, req, from, maxRetries).None? <==>
      forall j :: from <= j < Budget(maxRetries) ==> !Delivers(network, req, j)
    decreases Budget(maxRetries) - from
  {
    if from < Budget(maxRetries) && !Delivers(network, req, from) {
      FirstDeliveryIsFirst(network, req, from + 1, maxRetries);
    }
  }

  /** Retry success: attempts 0..k-1 fail and attempt k delivers, within the
      budget, so the fetch returns attempt k's body after the sleeps
      2^0..2^(k-1) and makes exactly k + 1 requests. */
  lemma RetrySuccess(network: Network, req: Request, maxRetries: int, k: nat)
    requires k < maxRetries
    requires forall j :: 0 <= j < k ==> !Delivers(network, req, j)
    requires Delivers(network, req, k)
    ensures Fetched(network, req, maxRetries) ==
      Trace(Some(Classify(network(req, k)).body), Backoff(k), k + 1)
  {
    FirstDeliveryIsFirst(network, req, 0, maxRetries);
  }

  /** Retry exhaustion: when no attempt within the budget delivers, the fetch
      returns None after exactly max(maxRetries, 0) requests, each followed by
      a sleep, the last one included. */
  lemma RetryExhaustion(network: Network, req: Request, maxRetries: int)
    requires forall j :: 0 <= j < maxRetries ==> !Delivers(network, req, j)
    ensures Fetched(network, req, maxRetries) ==
      Trace(None, Backoff(Budget(maxRetries)), Budget(maxRetries))
  {
    FirstDeliveryIsFirst(network, req, 0, maxRetries);
  }

  /** The fetch never makes more requests than its budget, and sleeps once
      per request that did not deliver. */
  lemma FetchBounds(network: Network, req: Request, maxRetries: int)
    ensures Fetched(network, req, maxRetries).requests <= Budget(maxRetries)
    ensures |Fetched(network, req, maxRetries).sleeps| ==
      if Fetched(network, req, maxRetries).data.Some?
      then Fetched(network, req, maxRetries).requests - 1
      else Fetched(network, req, maxRetries).requests
    ensures maxRetries <= 0 ==> Fetched(network, req, maxRetries).requests == 0
  {
    FirstDeliveryIsFirst(network, req, 0, maxRetries);
  }

  lemma {:induction false} SumAppend(s: seq<nat>, x: nat)
    ensures Sum(s + [x]) == Sum(s) + x
  {
    assert (s + [x])[..|s + [x]| - 1] == s;
  }

  lemma BackoffSnoc(n: nat)
    requires n > 0
    ensures Backoff(n) == Backoff(n - 1) + [Pow2(n - 1)]
  {
    var a, b := Backoff(n), Backoff(n - 1) + [Pow2(n - 1)];
    assert |a| == |b|;
    forall k | 0 <= k < n ensures a[k] == b[k] {
      if k < n - 1 { assert b[k] == Backoff(n - 1)[k]; }
    }
  }

  /** The total time slept after n failed attempts is 2^n - 1 seconds
      (31 seconds for the default budget of 5). */
  lemma {:induction false} BackoffTotal(n: nat)
    ensures Sum(Backoff(n)) == Pow2(n) - 1
  {
    if n > 0 {
      BackoffTotal(n - 1);
      BackoffSnoc(n);
      SumAppend(Backoff(n - 1), Pow2(n - 1));
    }
  }

  /** `make_request_with_retries(url, params, max_retries)`. */
  method MakeRequestWithRetries(network: Network, req: Request, maxRetries: int)
    returns (data: Option<Json>, sleeps: seq<nat>, requests: nat)
    ensures Trace(data, sleeps, requests) == Fetched(network, req, maxRetries)
  {
    sleeps, requests := [], 0;
    FirstDeliveryIsFirst(network, req, 0, maxRetries);
    for attempt := 0 to Budget(maxRetries)
      invariant requests == attempt
      invariant sleeps == Backoff(attempt)
      invariant forall j :: 0 <= j < attempt ==> !Delivers(network, req, j)
    {
      var response := network(req, attempt);
      requests := requests + 1;
      match Classify(response)
      case RateLimited =>
        sleeps := sleeps + [Pow2(attempt)];
      case Failed =>
        sleeps := sleeps + [Pow2(attempt)];
      case Delivered(body) =>
        data := Some(body);
        assert FirstDelivery(network, req, 0, maxRetries) == Some(attempt);
        return;
    }
    data := None;
  }
}
