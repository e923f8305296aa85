/**
 * The enrichment client: one analysis request is offered to each configured
 * LLM endpoint in list order until one of them answers without raising a
 * request error. What each endpoint does with the request is an input here
 * (an `Attempt` per endpoint), so the model is about the failover policy and
 * the reading of the answer, not about the network.
 */
module Enrichment {
  import opened Wrappers
  import Text

  /** The configured endpoints, primary first. */
  const LLM_API_URLS: seq<string> := ["http://192.168.42.254:8080/completion", "http://192.168.42.15:8080/completion"]

  /**
   * The decoded JSON body of a successful reply: a falsy body (`{}`, `null`)
   * or an object whose "content" member may be absent.
   */
  datatype Body = Falsy | Object(content: Option<string>)

  /** What one endpoint does: raise a request error (timeout, refused, HTTP error status) or answer. */
  datatype Outcome = Raised | Answered(body: Body)

  datatype Attempt = Attempt(url: string, outcome: Outcome)

  /** The result of a call: the reply, the endpoints whose failure was logged, and how many endpoints were tried. */
  datatype CallResult = CallResult(reply: Option<string>, logged: seq<string>, tried: nat)

  /** `response.json().get("content", "").strip() if response.json() else None`. */
  function ReplyOf(b: Body): Option<string> {
    match b
    case Falsy => None
    case Object(c) => Some(Text.Strip(c.GetOr("")))
  }

  /** A reply counts in an `if` test only when it is present and not empty. */
  predicate Truthy(r: Option<string>) {
    r.Some? && r.value != ""
  }

  /** The position of the first endpoint that answers, or `|eps|` when all of them raise. */
  function FirstAnswer(eps: seq<Attempt>): (k: nat)
    ensures k <= |eps|
    ensures forall i :: 0 <= i < k ==> eps[i].outcome.Raised?
    ensures k < |eps| ==> eps[k].outcome.Answered?
  {
    if eps == [] || eps[0].outcome.Answered? then 0 else 1 + FirstAnswer(eps[1..])
  }

  function Urls(eps: seq<Attempt>): (r: seq<string>)
    ensures |r| == |eps| && forall i :: 0 <= i < |eps| ==> r[i] == eps[i].url
  {
    if eps == [] then [] else [eps[0].url] + Urls(eps[1..])
  }

  /**
   * The failover policy as a recursive reference: try the head endpoint; on
   * a request error, log it and try the rest; on an answer, stop.
   */
  function Failover(eps: seq<Attempt>): CallResult {
    if eps == [] then CallResult(None, [], 0)
    else match eps[0].outcome
      case Raised =>
        var rest := Failover(eps[1..]);
        CallResult(rest.reply, [eps[0].url] + rest.logged, rest.tried + 1)
      case Answered(body) => CallResult(ReplyOf(body), [], 1)
  }

  /**
   * The first endpoint that answers decides the reply and nothing after it
   * is tried; exactly the endpoints before it are logged, in order; when
   * every endpoint raises, all are tried and logged and the reply is `None`.
   */
  lemma {:induction false} FailoverStopsAtFirstAnswer(eps: seq<Attempt>)
    ensures var e, k := Failover(eps), FirstAnswer(eps);
      && e.logged == Urls(eps[..k])
      && (k < |eps| ==> e.tried == k + 1 && e.reply == ReplyOf(eps[k].outcome.body))
      && (k == |eps| ==> e.tried == |eps| && e.reply == None)
  {
    if eps != [] {
      if eps[0].outcome.Raised? {
        FailoverStopsAtFirstAnswer(eps[1..]);
        assert eps[1..][..FirstAnswer(eps) - 1] == eps[..FirstAnswer(eps)][1..];
      } else {
        assert eps[..0] == [];
      }
    }
  }

  /**
   * With the configured endpoints, the logged failures are a prefix of
   * `LLM_API_URLS` in list order, followed by at most one answering endpoint.
   */
  lemma ConfiguredEndpointsInOrder(eps: seq<Attempt>)
    requires Urls(eps) == LLM_API_URLS
    ensures var e := Failover(eps);
      && e.tried <= |LLM_API_URLS|
      && |e.logged| <= |LLM_API_URLS| && e.logged == LLM_API_URLS[..|e.logged|]
      && (e.tried == |e.logged| + 1 || (e.tried == |e.logged| && e.reply == None))
  {
    FailoverStopsAtFirstAnswer(eps);
    var k := FirstAnswer(eps);
    assert Urls(eps[..k]) == Urls(eps)[..k];
  }

  /** With every endpoint down the call gives `None` and logs one error per endpoint. */
  lemma AllDownGivesNone(eps: seq<Attempt>)
    requires forall i :: 0 <= i < |eps| ==> eps[i].outcome.Raised?
    ensures Failover(eps) == CallResult(None, Urls(eps), |eps|)
  {
    FailoverStopsAtFirstAnswer(eps);
    assert FirstAnswer(eps) == |eps|;
    assert eps[..|eps|] == eps;
  }

  /** A primary that raises and a secondary that answers: the secondary's reply, one error logged. */
  lemma SecondaryAnswers(a: Attempt, b: Attempt)
    requires a.outcome.Raised? && b.outcome.Answered?
    ensures Failover([a, b]) == CallResult(ReplyOf(b.outcome.body), [a.url], 2)
  {
    assert [a, b][1..] == [b];
  }

  /** An answer whose content is only white space, or that has no content, is the empty (falsy) reply. */
  lemma BlankContentIsFalsy(c: Option<string>)
    requires c.Some? ==> Text.AllSpace(c.value)
    ensures ReplyOf(Object(c)) == Some("") && !Truthy(ReplyOf(Object(c)))
  {
    Text.StripAllSpace(c.GetOr(""));
  }

  /** `generate_response`: the loop over the endpoints, returning at the first one that answers. */
  method GenerateResponse(eps: seq<Attempt>) returns (reply: Option<string>, logged: seq<string>, tried: nat)
    ensures CallResult(reply, logged, tried) == Failover(eps)
    ensures |logged| <= tried <= |eps| && logged == Urls(eps[..|logged|])
    ensures forall i :: 0 <= i < |logged| ==> eps[i].outcome.Raised?
    ensures tried == |logged| + 1 ==> eps[|logged|].outcome.Answered? && reply == ReplyOf(eps[|logged|].outcome.body)
    ensures tried == |logged| ==> tried == |eps| && reply == None
  {
    logged := [];
    var i := 0;
    while i < |eps|
      invariant 0 <= i <= |eps|
      invariant i <= FirstAnswer(eps)
      invariant logged == Urls(eps[..i])
    {
      match eps[i].outcome
      case Raised =>
        assert eps[..i + 1] == eps[..i] + [eps[i]];
        UrlsSnoc(eps[..i], eps[i]);
        logged := logged + [eps[i].url];
        i := i + 1;
      case Answered(body) =>
        reply, tried := ReplyOf(body), i + 1;
        FailoverStopsAtFirstAnswer(eps);
        return;
    }
    reply, tried := None, |eps|;
    FailoverStopsAtFirstAnswer(eps);
  }

  lemma UrlsSnoc(eps: seq<Attempt>, a: Attempt)
    ensures Urls(eps + [a]) == Urls(eps) + [a.url]
  {
  }
}
