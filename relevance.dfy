/** The relevance scorer (`evaluate_relevance`): one language-model call per
    candidate that has a usable URL, parse-or-zero on the answer, and a running
    best kept with a strict `>` so the first maximum wins ties. */
module Relevance {
  import opened Wrappers
  import opened JsonValues

  /** One search result: a JSON object as the provider sent it. */
  type Candidate = map<string, Json>

  /** The two oracles of the scorer: the language model, asked how relevant the
      image at a URL is to the news text, and Python's `float(...strip())`,
      which yields None where it would raise ValueError. The model samples, so
      its answer also depends on the call: the last argument of `llm` is the
      number of scoring calls made before this one. */
  datatype Judge = Judge(llm: (string, Json, nat) -> string, parse: string -> Option<real>)

  /** The reduced result: `{'url': ..., 'description': ...}`. */
  datatype BestImage = BestImage(url: Json, description: Json)

  /** "Нет описания" ("no description"), the placeholder for a missing title. */
  const NoDescription := "Нет описания"

  /** `image.get('link') or image.get('thumbnail')`. */
  function ResolveUrl(c: Candidate): (u: Json)
    ensures u == Get(c, "link", Null) || u == Get(c, "thumbnail", Null)
    ensures Truthy(u) <==> Truthy(Get(c, "link", Null)) || Truthy(Get(c, "thumbnail", Null))
    ensures Truthy(Get(c, "link", Null)) ==> u == c["link"]
  {
    var link := Get(c, "link", Null);
    if Truthy(link) then link else Get(c, "thumbnail", Null)
  }

  /** A candidate is scored only when its resolved URL is truthy. */
  predicate Usable(c: Candidate) {
    Truthy(ResolveUrl(c))
  }

  /** The number of usable candidates in a list. */
  function CountUsable(images: seq<Candidate>): nat {
    if images == [] then 0
    else CountUsable(images[..|images| - 1]) + (if Usable(images[|images| - 1]) then 1 else 0)
  }

  /** Parse-or-zero: unparsable score text counts as exactly 0. */
  function ParseOrZero(parsed: Option<real>): real {
    match parsed
    case Some(x) => x
    case None => 0.0
  }

  /** The score the loop computes for candidate i: the usable candidates
      before it have each taken one scoring call. */
  function Score(judge: Judge, text: string, images: seq<Candidate>, i: int): real
    requires 0 <= i < |images|
  {
    ParseOrZero(judge.parse(judge.llm(text, ResolveUrl(images[i]), CountUsable(images[..i]))))
  }

  /** What is returned for the chosen candidate: its URL, and its `title`
      when that key is present (whatever its value), else the placeholder. */
  function Chosen(c: Candidate): BestImage {
    BestImage(ResolveUrl(c), Get(c, "title", Str(NoDescription)))
  }

  /** Among the first n candidates, candidate i is usable, no usable one
      scores higher, and every usable one before it scores strictly lower. */
  predicate IsBestAmong(images: seq<Candidate>, judge: Judge, text: string, n: int, i: int) {
    0 <= i < n <= |images| && Usable(images[i]) &&
    (forall j :: 0 <= j < n && Usable(images[j]) ==>
      Score(judge, text, images, j) <= Score(judge, text, images, i)) &&
    (forall j :: 0 <= j < i && Usable(images[j]) ==>
      Score(judge, text, images, j) < Score(judge, text, images, i))
  }

  /** Candidate i is the first maximum among all usable candidates. */
  predicate IsFirstBest(images: seq<Candidate>, judge: Judge, text: string, i: int) {
    IsBestAmong(images, judge, text, |images|, i)
  }

  predicate NoneUsable(images: seq<Candidate>) {
    forall i :: 0 <= i < |images| ==> !Usable(images[i])
  }

  /** The URLs the language model is asked about, in input order. */
  function UsableUrls(images: seq<Candidate>): (r: seq<Json>)
    ensures |r| <= |images|
    ensures forall k :: 0 <= k < |r| ==> Truthy(r[k])
  {
    if images == [] then []
    else
      var last := images[|images| - 1];
      UsableUrls(images[..|images| - 1]) + (if Usable(last) then [ResolveUrl(last)] else [])
  }

  /** No model call is made exactly when no candidate is usable. */
  lemma {:induction false} NoCallsIffNoneUsable(images: seq<Candidate>)
    ensures UsableUrls(images) == [] <==> NoneUsable(images)
  {
    if images != [] {
      var init := images[..|images| - 1];
      NoCallsIffNoneUsable(init);
      assert forall i :: 0 <= i < |init| ==> init[i] == images[i];
    }
  }

  /** One model call per usable candidate: the URLs asked about are the
      resolved URLs of the usable candidates, so their number is the number
      of usable candidates. */
  lemma {:induction false} CallsPerUsableCandidate(images: seq<Candidate>)
    ensures |UsableUrls(images)| == CountUsable(images)
    ensures CountUsable(images) <= |images|
  {
    if images != [] {
      CallsPerUsableCandidate(images[..|images| - 1]);
    }
  }

  /** One loop step that keeps the running best. */
  lemma KeepBest(images: seq<Candidate>, judge: Judge, text: string, k: int, i: int)
    requires k < |images| && IsBestAmong(images, judge, text, k, i)
    requires Usable(images[k]) ==> Score(judge, text, images, k) <= Score(judge, text, images, i)
    ensures IsBestAmong(images, judge, text, k + 1, i)
  {
  }

  /** One loop step that replaces the running best, or sets the first one. */
  lemma TakeBest(images: seq<Candidate>, judge: Judge, text: string, k: int, i: int)
    requires 0 <= k < |images| && Usable(images[k])
    requires NoneUsable(images[..k]) ||
      (IsBestAmong(images, judge, text, k, i) &&
       Score(judge, text, images, k) > Score(judge, text, images, i))
    ensures IsBestAmong(images, judge, text, k + 1, k)
  {
    assert forall j :: 0 <= j < k ==> images[..k][j] == images[j];
  }

  lemma {:induction false} BestAmongExists(images: seq<Candidate>, judge: Judge, text: string, n: int)
    requires 0 <= n <= |images|
    requires exists j :: 0 <= j < n && Usable(images[j])
    ensures exists i :: IsBestAmong(images, judge, text, n, i)
  {
    var m := n - 1;
    if exists j :: 0 <= j < m && Usable(images[j]) {
      BestAmongExists(images, judge, text, m);
      var i :| IsBestAmong(images, judge, text, m, i);
      if Usable(images[m]) && Score(judge, text, images, m) > Score(judge, text, images, i) {
        TakeBest(images, judge, text, m, i);
      } else {
        KeepBest(images, judge, text, m, i);
      }
    } else {
      assert Usable(images[m]);
      assert NoneUsable(images[..m]) by {
        forall j | 0 <= j < m ensures !Usable(images[..m][j]) {
          assert images[..m][j] == images[j];
        }
      }
      TakeBest(images, judge, text, m, 0);
    }
  }

  /** When some candidate is usable, a first maximum exists. */
  lemma FirstBestExists(images: seq<Candidate>, judge: Judge, text: string)
    requires !NoneUsable(images)
    ensures exists i :: IsFirstBest(images, judge, text, i)
  {
    BestAmongExists(images, judge, text, |images|);
    var i :| IsBestAmong(images, judge, text, |images|, i);
    assert IsFirstBest(images, judge, text, i);
  }

  /** The first maximum is unique, so the selection is determined. */
  lemma FirstBestUnique(images: seq<Candidate>, judge: Judge, text: string, i: int, k: int)
    requires IsFirstBest(images, judge, text, i) && IsFirstBest(images, judge, text, k)
    ensures i == k
  {
  }

  /** Tie-break: a usable candidate that only equals an earlier candidate's
      score is never the one selected. */
  lemma LaterTieLoses(images: seq<Candidate>, judge: Judge, text: string, i: int, k: int)
    requires 0 <= i < k < |images| && Usable(images[i])
    requires Score(judge, text, images, i) == Score(judge, text, images, k)
    ensures !IsFirstBest(images, judge, text, k)
  {
  }

  /** A malformed answer is scored 0 and still competes: if every other
      usable candidate scores below 0, the malformed one is selected. */
  lemma MalformedStillCompetes(images: seq<Candidate>, judge: Judge, text: string, i: int)
    requires 0 <= i < |images| && Usable(images[i])
    requires judge.parse(judge.llm(text, ResolveUrl(images[i]), CountUsable(images[..i]))).None?
    requires forall j :: 0 <= j < |images| && j != i && Usable(images[j]) ==>
      Score(judge, text, images, j) < 0.0
    ensures Score(judge, text, images, i) == 0.0
    ensures IsFirstBest(images, judge, text, i)
  {
  }

  /** `evaluate_relevance(images, text)`, after its credential check.
      `asked` records the URL of every language-model call, in order;
      `best == None` plays the role of the `-inf` sentinel. */
  method EvaluateRelevance(images: seq<Candidate>, text: string, judge: Judge)
    returns (best: Option<BestImage>, asked: seq<Json>)
    ensures asked == UsableUrls(images)
    ensures best.None? <==> NoneUsable(images)
    ensures best.None? <==> asked == []
    ensures best.Some? ==>
      exists i :: IsFirstBest(images, judge, text, i) && best.value == Chosen(images[i])
  {
    best, asked := None, [];
    var bestScore: real := 0.0;
    ghost var bestIndex: nat := 0;
    for k := 0 to |images|
      invariant asked == UsableUrls(images[..k])
      invariant best.None? <==> NoneUsable(images[..k])
      invariant best.Some? ==>
        IsBestAmong(images, judge, text, k, bestIndex) &&
        best.value == Chosen(images[bestIndex]) &&
        bestScore == Score(judge, text, images, bestIndex)
    {
      assert images[..k + 1][..k] == images[..k];
      assert images[..k + 1][k] == images[k];
      CallsPerUsableCandidate(images[..k]);
      var image := images[k];
      var imageUrl := ResolveUrl(image);
      if !Truthy(imageUrl) {
        if best.Some? { KeepBest(images, judge, text, k, bestIndex); }
        continue;
      }
      var scoreText := judge.llm(text, imageUrl, |asked|);
      asked := asked + [imageUrl];
      var score := ParseOrZero(judge.parse(scoreText));
      assert score == Score(judge, text, images, k);
      if best.None? || score > bestScore {
        TakeBest(images, judge, text, k, bestIndex);
        bestScore := score;
        best := Some(Chosen(image));
        bestIndex := k;
      } else {
        KeepBest(images, judge, text, k, bestIndex);
      }
    }
    assert images[..|images|] == images;
    NoCallsIffNoneUsable(images);
  }
}
