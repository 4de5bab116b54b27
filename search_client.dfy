/**
 * The search-optimised client: its settings, the setters that normalise them, the
 * assembly of query parameters and the pagination loop of `Search`.
 *
 * The client talks to a ScriptedTransport, which stands for building the HTTP request,
 * sending it and decoding the reply: it answers each request with the next outcome of a
 * finite script and keeps a log of the parameters it was sent.
 */
module TwitterSearch {
  import opened Wrappers
  import opened Numbers
  import opened SearchModel

  class ScriptedTransport {
    /** The outcomes this transport has still to hand out, in order. */
    var pending: seq<Outcome>
    /** The parameters of every request made so far, in order. */
    var sent: seq<Params>

    constructor (outcomes: seq<Outcome>)
      ensures pending == outcomes && sent == []
    {
      pending := outcomes;
      sent := [];
    }

    /** One request/response exchange. */
    method Exchange(params: Params) returns (o: Outcome)
      requires pending != []
      modifies this`pending, this`sent
      ensures o == old(pending)[0] && pending == old(pending)[1..]
      ensures sent == old(sent) + [params]
    {
      o := pending[0];
      pending := pending[1..];
      sent := sent + [params];
    }
  }

  /** `minID` folded over a page, as the `for range` loops of `Search` do: the result is
      the least of `minID` and the page's IDs. */
  method LowerMin(minID: uint64, tweets: seq<uint64>) returns (m: uint64)
    ensures m == Min(minID, MinId(tweets))
  {
    m := minID;
    for i := 0 to |tweets|
      invariant m == Min(minID, MinId(tweets[..i]))
    {
      assert tweets[..i + 1][..i] == tweets[..i];
      if tweets[i] < m {
        m := tweets[i];
      }
    }
    assert tweets[..|tweets|] == tweets;
  }

  class SearchTwitterClient {
    const twitterClient: ScriptedTransport
    var sinceID: uint64
    var maxID: uint64
    var resultType: string
    var language: string

    /** A client as the constructors leave it: every setting at Go's zero value. */
    constructor (transport: ScriptedTransport)
      ensures twitterClient == transport
      ensures sinceID == 0 && maxID == 0 && resultType == "" && language == ""
    {
      twitterClient := transport;
      sinceID, maxID := 0, 0;
      resultType, language := "", "";
    }

    function Settings(): Config
      reads this
    {
      Config(sinceID, maxID, resultType, language)
    }

    method SetSinceID(id: uint64)
      modifies this`sinceID
      ensures sinceID == id
    {
      sinceID := id;
    }

    method SetMaxID(id: uint64)
      modifies this`maxID
      ensures maxID == id
    {
      maxID := id;
    }

    /** Keeps "recent" and "popular"; anything else, the empty string included, is "mixed". */
    method SetResultType(kind: string)
      modifies this`resultType
      ensures resultType in {"recent", "popular", "mixed"}
      ensures kind == "recent" || kind == "popular" ==> resultType == kind
      ensures kind != "recent" && kind != "popular" ==> resultType == "mixed"
    {
      if kind == "recent" || kind == "popular" {
        resultType := kind;
      } else {
        resultType := "mixed";
      }
    }

    /** Keeps any non-empty language; the empty string becomes "en". */
    method SetLanguage(lang: string)
      modifies this`language
      ensures |language| > 0
      ensures lang != "" ==> language == lang
      ensures lang == "" ==> language == "en"
    {
      if |lang| > 0 {
        language := lang;
      } else {
        language := "en";
      }
    }

    /** The first request's parameters: `max_id` only when MaxID is positive. */
    method FirstPageParams(query: string) returns (params: Params)
      ensures params == RequestParams(Settings(), query, false)
    {
      params := map[];
      params := params["count" := DecimalString(BatchSize)];
      if |language| > 0 {
        params := params["lang" := language];
      }
      if maxID > 0 {
        params := params["max_id" := DecimalString(maxID)];
      }
      params := params["q" := query];
      params := params["result_type" := resultType];
      if sinceID > 0 {
        params := params["since_id" := DecimalString(sinceID)];
      }
      assert params.Keys == RequestParams(Settings(), query, false).Keys;
    }

    /** A follow-up request's parameters: `max_id` always, even when it is 0. */
    method NextPageParams(query: string) returns (params: Params)
      ensures params == RequestParams(Settings(), query, true)
    {
      params := map[];
      params := params["count" := DecimalString(BatchSize)];
      params := params["q" := query];
      if |language| > 0 {
        params := params["lang" := language];
      }
      params := params["max_id" := DecimalString(maxID)];
      params := params["result_type" := resultType];
      if sinceID > 0 {
        params := params["since_id" := DecimalString(sinceID)];
      }
      assert params.Keys == RequestParams(Settings(), query, true).Keys;
    }

    /** `searchForMore`: one follow-up request with the current MaxID. */
    method SearchForMore(query: string) returns (r: Result<SearchTweetsResponse, string>)
      requires twitterClient.pending != []
      modifies twitterClient`pending, twitterClient`sent
      ensures r == ResponseOf(old(twitterClient.pending)[0])
      ensures twitterClient.pending == old(twitterClient.pending)[1..]
      ensures twitterClient.sent == old(twitterClient.sent) + [RequestParams(Settings(), query, true)]
    {
      var params := NextPageParams(query);
      var o := twitterClient.Exchange(params);
      if o.RequestRejected? || o.SendFailed? {
        return Failure(o.err);
      }
      var result := EmptyResponse;
      if o.headers.Some? {
        result := WithRateLimit(result, o.headers.value);
      }
      if o.ParseFailed? {
        return Failure(o.err);
      }
      if o.RateLimited? {
        result := WithRateLimit(result, o.refusal);
      }
      if o.Statuses? && |o.ids| > 0 {
        result := result.(tweets := o.ids);
      }
      return Success(result);
    }

    /** `Search`: a first request, then follow-ups below the running minimum ID until a
        follow-up page is empty; any failure discards everything gathered. */
    method Search(query: string) returns (r: Result<SearchTweetsResponse, string>)
      requires HasStop(twitterClient.pending)
      modifies this`maxID, twitterClient`pending, twitterClient`sent
      ensures r == SearchResult(old(twitterClient.pending))
      ensures twitterClient.pending == old(twitterClient.pending)[StopIndex(old(twitterClient.pending)) + 1..]
      ensures twitterClient.sent == old(twitterClient.sent)
        + Requests(old(Settings()), query, old(twitterClient.pending), StopIndex(old(twitterClient.pending)) + 1)
      ensures maxID == FinalMaxID(old(Settings()), old(twitterClient.pending))
      ensures sinceID == old(sinceID) && resultType == old(resultType) && language == old(language)
    {
      ghost var script, sent0, cfg := twitterClient.pending, twitterClient.sent, Settings();

      var params := FirstPageParams(query);
      var o := twitterClient.Exchange(params);
      if o.RequestRejected? || o.SendFailed? {
        return Failure(o.err);
      }
      var result := EmptyResponse;
      if o.headers.Some? {
        result := WithRateLimit(result, o.headers.value);
      }
      if o.ParseFailed? {
        return Failure(o.err);
      }
      if o.RateLimited? {
        result := WithRateLimit(result, o.refusal);
      }
      if !o.Statuses? || |o.ids| == 0 {
        StopIndexIs(script, 0);
        return Success(result);
      }
      result := result.(tweets := o.ids);
      var minID := LowerMin(MaxUint64, o.ids);

      ProgressStart(cfg, query, script);
      ghost var n, log := 1, [params];
      while true
        invariant Progress(cfg, query, script, n, minID, result, log)
        invariant twitterClient.pending == script[n..]
        invariant twitterClient.sent == sent0 + log
        invariant Settings().(maxID := cfg.maxID) == cfg
        decreases |script| - n
      {
        ProgressStep(cfg, query, script, n, minID, result, log);
        maxID := Decrement(minID);
        ghost var req := RequestParams(cfg.(maxID := Decrement(minID)), query, true);
        assert Settings() == cfg.(maxID := Decrement(minID));
        var next := SearchForMore(query);
        AppendAssoc(sent0, log, [req]);
        DropDrop(script, n);
        log := log + [req];
        assert next == ResponseOf(script[n]);
        assert twitterClient.pending == script[n + 1..];
        if next.Failure? {
          return Failure(next.error);
        }
        result := next.value.(tweets := result.tweets + next.value.tweets);
        if |next.value.tweets| == 0 {
          break;
        }
        minID := LowerMin(minID, next.value.tweets);
        n := n + 1;
      }
      return Success(result);
    }
  }
}
