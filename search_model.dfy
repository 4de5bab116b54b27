/**
 * What one call of `SearchTwitterClient.Search` does, stated on values.
 *
 * The transport (request construction, the HTTP exchange and the JSON decoder)
 * is replaced by a finite script of outcomes, one per request, in order. Given
 * the client's settings, the query and that script, the functions below say
 * which requests are issued, what the search returns and what `MaxID` is left
 * at. They describe the result declaratively, by the first outcome that stops
 * the search, rather than by replaying the loop; the loop itself lives in
 * module TwitterSearch and is proved to agree with them.
 */
module SearchModel {
  import opened Wrappers
  import opened Numbers

  /** `BatchSize`: tweets asked for per request. */
  const BatchSize: nat := 100

  /** The client fields a search reads: since_id, max_id, result_type and lang. */
  datatype Config = Config(sinceID: uint64, maxID: uint64, resultType: string, language: string)

  /** Query parameters of one request, key to value. Percent-encoding is not modelled. */
  type Params = map<string, string>

  /** Quota figures: ceiling, calls remaining, and the reset time (an opaque timestamp, 0 for Go's zero time). */
  datatype RateLimit = RateLimit(limit: uint32, remaining: uint32, reset: int)

  /** What the transport makes of one request. */
  datatype Outcome =
    | RequestRejected(err: string)                           // http.NewRequest failed
    | SendFailed(err: string)                                // SendRequest failed
    | ParseFailed(headers: Option<RateLimit>, err: string)   // Parse failed, not on quota
    | RateLimited(headers: Option<RateLimit>, refusal: RateLimit)  // Parse gave a RateLimitError
    | Statuses(headers: Option<RateLimit>, ids: seq<uint64>) // a page of tweets, by ID

  /** `SearchTweetsResponse`; a tweet is represented by its ID. */
  datatype SearchTweetsResponse = SearchTweetsResponse(
    tweets: seq<uint64>,
    hasRateLimit: bool,
    rateLimit: uint32,
    rateLimitRemaining: uint32,
    rateLimitReset: int)

  /** Go's zero value `SearchTweetsResponse{}`. */
  const EmptyResponse := SearchTweetsResponse([], false, 0, 0, 0)

  function RateLimitOf(r: SearchTweetsResponse): RateLimit {
    RateLimit(r.rateLimit, r.rateLimitRemaining, r.rateLimitReset)
  }

  /** The response with its rate-limit fields taken from `rl`. */
  function WithRateLimit(r: SearchTweetsResponse, rl: RateLimit): (s: SearchTweetsResponse)
    ensures s.tweets == r.tweets && s.hasRateLimit && RateLimitOf(s) == rl
  {
    r.(hasRateLimit := true, rateLimit := rl.limit, rateLimitRemaining := rl.remaining, rateLimitReset := rl.reset)
  }

  function IsFailure(o: Outcome): bool {
    o.RequestRejected? || o.SendFailed? || o.ParseFailed?
  }

  /** The tweet IDs an outcome delivers: only a page of statuses delivers any. */
  function PageIds(o: Outcome): seq<uint64> {
    if o.Statuses? then o.ids else []
  }

  /** The response a single request yields: an error for the three failures; otherwise
      the page's tweets and rate-limit fields, where a quota refusal's figures win over
      the response headers and a response without headers leaves the zero values. */
  function ResponseOf(o: Outcome): (r: Result<SearchTweetsResponse, string>)
    ensures r.Failure? <==> IsFailure(o)
    ensures r.Failure? ==> r.error == o.err
    ensures r.Success? ==> r.value.tweets == PageIds(o)
    ensures o.RateLimited? ==> r.Success? && r.value.hasRateLimit && RateLimitOf(r.value) == o.refusal
    ensures o.Statuses? ==> r.Success? && r.value.hasRateLimit == o.headers.Some?
    ensures o.Statuses? && o.headers.Some? ==> RateLimitOf(r.value) == o.headers.value
    ensures o.Statuses? && o.headers.None? ==> RateLimitOf(r.value) == RateLimit(0, 0, 0)
  {
    match o
    case RequestRejected(e) => Failure(e)
    case SendFailed(e) => Failure(e)
    case ParseFailed(_, e) => Failure(e)
    case RateLimited(_, refusal) => Success(WithRateLimit(EmptyResponse, refusal))
    case Statuses(headers, ids) => Success(PageResponse(headers, ids))
  }

  /** The response for a page of statuses: its IDs, and the header figures when present. */
  function PageResponse(headers: Option<RateLimit>, ids: seq<uint64>): SearchTweetsResponse {
    var base := if headers.Some? then WithRateLimit(EmptyResponse, headers.value) else EmptyResponse;
    base.(tweets := ids)
  }

  /** The search goes on after this outcome: it is a page with at least one tweet. */
  predicate Continues(o: Outcome) {
    o.Statuses? && |o.ids| > 0
  }

  /** Some outcome in the script ends the search. */
  ghost predicate HasStop(script: seq<Outcome>) {
    exists i :: 0 <= i < |script| && !Continues(script[i])
  }

  /** The first outcome at or after `from` that ends the search. */
  function StopFrom(script: seq<Outcome>, from: nat): (k: nat)
    requires from <= |script|
    requires exists i :: from <= i < |script| && !Continues(script[i])
    ensures from <= k < |script| && !Continues(script[k])
    ensures forall j :: from <= j < k ==> Continues(script[j])
    decreases |script| - from
  {
    if !Continues(script[from]) then from else StopFrom(script, from + 1)
  }

  /** Index of the outcome that ends the search; the search makes StopIndex + 1 requests. */
  function StopIndex(script: seq<Outcome>): (k: nat)
    requires HasStop(script)
    ensures k < |script| && !Continues(script[k])
    ensures forall j :: 0 <= j < k ==> Continues(script[j])
  {
    StopFrom(script, 0)
  }

  /** The tweet IDs of the first `n` responses, concatenated in request order. */
  function Gathered(script: seq<Outcome>, n: nat): (ids: seq<uint64>)
    requires n <= |script|
  {
    if n == 0 then [] else Gathered(script, n - 1) + PageIds(script[n - 1])
  }

  /** The least ID, starting from the sentinel 2^64 - 1 as `minID` does. */
  function MinId(ids: seq<uint64>): uint64
  {
    if ids == [] then MaxUint64 else Min(MinId(ids[..|ids| - 1]), ids[|ids| - 1])
  }

  /** MinId is the minimum: at most every ID and one of them (the sentinel when there are none). */
  lemma {:induction false} MinIdIsLeast(ids: seq<uint64>)
    ensures forall t :: t in ids ==> MinId(ids) <= t
    ensures ids != [] ==> MinId(ids) in ids
    ensures ids == [] ==> MinId(ids) == MaxUint64
    decreases |ids|
  {
    if ids != [] {
      var front := ids[..|ids| - 1];
      MinIdIsLeast(front);
      assert ids == front + [ids[|ids| - 1]];
    }
  }

  /** `minID` once the first `n` responses are processed: the sentinel, lowered by the
      IDs of each page in turn. */
  function Cursor(script: seq<Outcome>, n: nat): uint64
    requires n <= |script|
  {
    if n == 0 then MaxUint64 else Min(Cursor(script, n - 1), MinId(PageIds(script[n - 1])))
  }

  /** The parameters a request carries, and their values. */
  const ParamKeys: set<string> := {"count", "lang", "max_id", "q", "result_type", "since_id"}

  predicate Sends(cfg: Config, followUp: bool, key: string) {
    match key
    case "lang" => |cfg.language| > 0
    case "max_id" => followUp || cfg.maxID > 0
    case "since_id" => cfg.sinceID > 0
    case _ => true
  }

  function ParamValue(cfg: Config, query: string, key: string): string {
    match key
    case "count" => DecimalString(BatchSize)
    case "lang" => cfg.language
    case "max_id" => DecimalString(cfg.maxID)
    case "q" => query
    case "result_type" => cfg.resultType
    case _ => DecimalString(cfg.sinceID)
  }

  /** The query parameters of a first request (`followUp` false) or of a follow-up request. */
  function RequestParams(cfg: Config, query: string, followUp: bool): (p: Params)
    ensures p.Keys <= ParamKeys
    ensures "count" in p && p["count"] == "100"
    ensures "q" in p && p["q"] == query
    ensures "result_type" in p && p["result_type"] == cfg.resultType
    ensures ("lang" in p <==> |cfg.language| > 0) && ("lang" in p ==> p["lang"] == cfg.language)
    ensures ("max_id" in p <==> followUp || cfg.maxID > 0) && ("max_id" in p ==> p["max_id"] == DecimalString(cfg.maxID))
    ensures ("since_id" in p <==> cfg.sinceID > 0) && ("since_id" in p ==> p["since_id"] == DecimalString(cfg.sinceID))
  {
    map key | key in ParamKeys && Sends(cfg, followUp, key) :: ParamValue(cfg, query, key)
  }

  /** The settings in force for request `i`: the caller's for the first, and for every
      follow-up the caller's with `MaxID` set to the running minimum minus one. */
  function SettingsAt(cfg: Config, script: seq<Outcome>, i: nat): Config
    requires i <= |script|
  {
    if i == 0 then cfg else cfg.(maxID := Decrement(Cursor(script, i)))
  }

  function RequestAt(cfg: Config, query: string, script: seq<Outcome>, i: nat): Params
    requires i <= |script|
  {
    RequestParams(SettingsAt(cfg, script, i), query, i > 0)
  }

  /** The first `n` requests of a search, in order. Its ensures gives only the length;
      what entry `i` holds is stated by RequestsAt. */
  function Requests(cfg: Config, query: string, script: seq<Outcome>, n: nat): (reqs: seq<Params>)
    requires n <= |script|
    ensures |reqs| == n
  {
    if n == 0 then [] else Requests(cfg, query, script, n - 1) + [RequestAt(cfg, query, script, n - 1)]
  }

  /** What `Search` returns: the error of the stopping outcome, or the tweets of all pages
      before it with the rate-limit state of the stopping (that is, the last) response. */
  function SearchResult(script: seq<Outcome>): Result<SearchTweetsResponse, string>
    requires HasStop(script)
  {
    var k := StopIndex(script);
    match ResponseOf(script[k])
    case Failure(e) => Failure(e)
    case Success(last) => Success(last.(tweets := Gathered(script, k)))
  }

  /** `MaxID` after the search: untouched when only one request was made, otherwise the
      bound of the last follow-up request. */
  function FinalMaxID(cfg: Config, script: seq<Outcome>): uint64
    requires HasStop(script)
  {
    SettingsAt(cfg, script, StopIndex(script)).maxID
  }

  /** Where `Search` stands after `n` responses that all continued the search: `minID`
      is the running minimum, `result` holds the tweets gathered so far with the rate-limit
      figures of the latest response, and `log` lists the requests made. */
  ghost predicate Progress(cfg: Config, query: string, script: seq<Outcome>, n: nat,
                           minID: uint64, result: SearchTweetsResponse, log: seq<Params>)
  {
    && HasStop(script) && 1 <= n <= StopIndex(script)
    && minID == Cursor(script, n)
    && script[n - 1].Statuses?
    && result == PageResponse(script[n - 1].headers, Gathered(script, n))
    && log == Requests(cfg, query, script, n)
  }

  // ---------------------------------------------------------------------------
  // Lemmas
  // ---------------------------------------------------------------------------

  /** Accumulated order: what the first `i` responses gave stays, unchanged, at the front
      of what later responses give. */
  lemma {:induction false} GatheredPrefix(script: seq<Outcome>, i: nat, j: nat)
    requires i <= j <= |script|
    ensures |Gathered(script, i)| <= |Gathered(script, j)|
    ensures Gathered(script, j)[..|Gathered(script, i)|] == Gathered(script, i)
    decreases j
  {
    if i < j {
      GatheredPrefix(script, i, j - 1);
      var g := Gathered(script, j - 1);
      assert (g + PageIds(script[j - 1]))[..|Gathered(script, i)|] == g[..|Gathered(script, i)|];
    }
  }

  /** Each page's tweets form one block of the accumulated sequence, right after those of
      the pages before it: no reordering and no deduplication. */
  lemma {:induction false} PageBlock(script: seq<Outcome>, j: nat, n: nat)
    requires j < n <= |script|
    ensures var at := |Gathered(script, j)|;
      at + |PageIds(script[j])| <= |Gathered(script, n)|
      && Gathered(script, n)[at..at + |PageIds(script[j])|] == PageIds(script[j])
    decreases n
  {
    var before, page := Gathered(script, j), PageIds(script[j]);
    var at, end := |before|, |before| + |page|;
    if n == j + 1 {
      assert Gathered(script, n) == before + page;
      assert (before + page)[at..end] == page;
    } else {
      PageBlock(script, j, n - 1);
      var front, last := Gathered(script, n - 1), PageIds(script[n - 1]);
      assert Gathered(script, n) == front + last;
      assert (front + last)[at..end] == front[at..end];
    }
  }

  /** The running minimum is at most every tweet ID gathered so far and is one of them,
      or the sentinel while nothing has been gathered. */
  lemma {:induction false} CursorBounds(script: seq<Outcome>, n: nat)
    requires n <= |script|
    ensures forall t :: t in Gathered(script, n) ==> Cursor(script, n) <= t
    ensures Gathered(script, n) == [] ==> Cursor(script, n) == MaxUint64
    ensures Gathered(script, n) != [] ==> Cursor(script, n) in Gathered(script, n)
  {
    if n > 0 {
      var before, page := Gathered(script, n - 1), PageIds(script[n - 1]);
      CursorBounds(script, n - 1);
      MinIdIsLeast(page);
      assert Gathered(script, n) == before + page;
    }
  }

  /** The running minimum is the minimum of everything gathered so far. */
  lemma CursorIsMinIdOfGathered(script: seq<Outcome>, n: nat)
    requires n <= |script|
    ensures Cursor(script, n) == MinId(Gathered(script, n))
  {
    CursorBounds(script, n);
    MinIdIsLeast(Gathered(script, n));
  }

  /** After each processed page the running minimum is at most every tweet ID seen so far
      and is one of them. */
  lemma CursorIsMinimumSeen(script: seq<Outcome>, n: nat)
    requires 1 <= n <= |script| && Continues(script[0])
    ensures Cursor(script, n) in Gathered(script, n)
    ensures forall t :: t in Gathered(script, n) ==> Cursor(script, n) <= t
  {
    CursorBounds(script, n);
    GatheredPrefix(script, 1, n);
    assert Gathered(script, 1) == PageIds(script[0]);
  }

  /** The running minimum never increases. */
  lemma {:induction false} CursorNeverIncreases(script: seq<Outcome>, i: nat, j: nat)
    requires i <= j <= |script|
    ensures Cursor(script, j) <= Cursor(script, i)
    decreases j - i
  {
    if i < j {
      CursorNeverIncreases(script, i, j - 1);
    }
  }

  /** The log of a search lists its requests in order: entry `i` is request `i`. */
  lemma {:induction false} RequestsAt(cfg: Config, query: string, script: seq<Outcome>, n: nat, i: nat)
    requires i < n <= |script|
    ensures Requests(cfg, query, script, n)[i] == RequestAt(cfg, query, script, i)
    decreases n
  {
    if i < n - 1 {
      RequestsAt(cfg, query, script, n - 1, i);
    }
  }

  /** Every follow-up request carries `max_id`, even when it is 0, and its value is the
      minimum over the tweets of all earlier pages, minus one with uint64 wrap-around; the
      other parameters are those of the first request's settings. */
  lemma FollowUpRequest(cfg: Config, query: string, script: seq<Outcome>, i: nat)
    requires 1 <= i <= |script|
    ensures var req := RequestAt(cfg, query, script, i);
      && "max_id" in req
      && ParseDecimal(req["max_id"]) == Decrement(MinId(Gathered(script, i)))
      && req["q"] == query
      && req["result_type"] == cfg.resultType
      && ("lang" in req <==> |cfg.language| > 0) && ("lang" in req ==> req["lang"] == cfg.language)
      && ("since_id" in req <==> cfg.sinceID > 0)
      && ("since_id" in req ==> req["since_id"] == DecimalString(cfg.sinceID))
  {
    CursorIsMinIdOfGathered(script, i);
    ParseDecimalString(Decrement(MinId(Gathered(script, i))));
  }

  /** The first request carries exactly the caller's bounds. */
  lemma FirstRequest(cfg: Config, query: string, script: seq<Outcome>)
    ensures var req := RequestAt(cfg, query, script, 0);
      && ("max_id" in req <==> cfg.maxID > 0)
      && ("max_id" in req ==> ParseDecimal(req["max_id"]) == cfg.maxID)
      && ("since_id" in req <==> cfg.sinceID > 0)
      && ("since_id" in req ==> ParseDecimal(req["since_id"]) == cfg.sinceID)
  {
    ParseDecimalString(cfg.maxID);
    ParseDecimalString(cfg.sinceID);
  }

  /** When a page's minimum ID is 0 the next bound wraps to 2^64 - 1, as Go's uint64 does. */
  lemma CursorWrapsAtZero(cfg: Config, query: string, script: seq<Outcome>, i: nat)
    requires 1 <= i <= |script| && Cursor(script, i) == 0
    ensures ParseDecimal(RequestAt(cfg, query, script, i)["max_id"]) == MaxUint64
  {
    ParseDecimalString(MaxUint64);
  }

  /** A first page with tweets starts the follow-ups. */
  lemma ProgressStart(cfg: Config, query: string, script: seq<Outcome>)
    requires HasStop(script) && Continues(script[0])
    ensures Progress(cfg, query, script, 1, Min(MaxUint64, MinId(script[0].ids)),
                     PageResponse(script[0].headers, script[0].ids), [RequestParams(cfg, query, false)])
  {
  }

  /** One turn of the follow-up loop: the next request carries the bound just below the
      running minimum; a failure or an empty page ends the search with `SearchResult`,
      any other page advances the progress by one response. */
  lemma ProgressStep(cfg: Config, query: string, script: seq<Outcome>, n: nat,
                     minID: uint64, result: SearchTweetsResponse, log: seq<Params>)
    requires Progress(cfg, query, script, n, minID, result, log)
    ensures n < |script|
    ensures var req := RequestParams(cfg.(maxID := Decrement(minID)), query, true);
      var next := ResponseOf(script[n]);
      && (!Continues(script[n]) ==>
          && StopIndex(script) == n
          && log + [req] == Requests(cfg, query, script, n + 1)
          && FinalMaxID(cfg, script) == Decrement(minID))
      && (next.Failure? ==> SearchResult(script) == Failure(next.error))
      && (next.Success? && |next.value.tweets| == 0 ==>
          SearchResult(script) == Success(next.value.(tweets := result.tweets + next.value.tweets)))
      && (next.Success? && |next.value.tweets| > 0 ==>
          Progress(cfg, query, script, n + 1, Min(minID, MinId(next.value.tweets)),
                   next.value.(tweets := result.tweets + next.value.tweets), log + [req]))
  {
    var req := RequestParams(cfg.(maxID := Decrement(minID)), query, true);
    var next := ResponseOf(script[n]);
    assert Requests(cfg, query, script, n + 1) == log + [req];
    if !Continues(script[n]) {
      StopIndexIs(script, n);
      if next.Success? {
        assert next.value.tweets == [];
        assert result.tweets + next.value.tweets == Gathered(script, n);
      }
    }
  }

  /** Sequence concatenation regrouped, stated once so the loop proof need not rediscover it. */
  lemma AppendAssoc<T>(a: seq<T>, b: seq<T>, c: seq<T>)
    ensures (a + b) + c == a + (b + c)
  {
  }

  /** Dropping one more outcome from a suffix of the script. */
  lemma DropDrop<T>(s: seq<T>, n: nat)
    requires n < |s|
    ensures s[n..][1..] == s[n + 1..]
  {
  }

  /** The search stops exactly at the first outcome that does not continue it. */
  lemma StopIndexIs(script: seq<Outcome>, n: nat)
    requires n < |script| && !Continues(script[n])
    requires forall j :: 0 <= j < n ==> Continues(script[j])
    ensures HasStop(script) && StopIndex(script) == n
  {
  }

  /** An empty first page, a quota refusal on it, or a failure of it: one request only;
      unless it failed, no tweets and that response's rate-limit state. */
  lemma FirstPageStops(script: seq<Outcome>)
    requires |script| > 0 && !Continues(script[0])
    ensures HasStop(script) && StopIndex(script) == 0
    ensures IsFailure(script[0]) ==> SearchResult(script) == Failure(script[0].err)
    ensures !IsFailure(script[0]) ==> SearchResult(script).Success? && SearchResult(script).value.tweets == []
    ensures script[0].RateLimited? ==>
      SearchResult(script).value.hasRateLimit && RateLimitOf(SearchResult(script).value) == script[0].refusal
  {
  }

  /** A quota refusal after `n` full pages stops the search with those pages' tweets and
      the refusal's figures. */
  lemma RateLimitedStops(script: seq<Outcome>, n: nat)
    requires n < |script| && script[n].RateLimited?
    requires forall j :: 0 <= j < n ==> Continues(script[j])
    ensures HasStop(script) && StopIndex(script) == n
    ensures SearchResult(script).Success?
    ensures SearchResult(script).value.tweets == Gathered(script, n)
    ensures SearchResult(script).value.hasRateLimit
    ensures RateLimitOf(SearchResult(script).value) == script[n].refusal
  {
  }

  /** All or nothing: a failure of any request discards every tweet gathered before it and
      hands back that failure's error unchanged. */
  lemma FailureDiscardsTweets(script: seq<Outcome>, n: nat)
    requires n < |script| && IsFailure(script[n])
    requires forall j :: 0 <= j < n ==> Continues(script[j])
    ensures HasStop(script) && SearchResult(script) == Failure(script[n].err)
  {
  }

  /** On success the rate-limit fields are those of the last response, including
      `hasRateLimit == false` and zero figures when that response had no headers. */
  lemma LastResponseRateLimit(script: seq<Outcome>)
    requires HasStop(script) && SearchResult(script).Success?
    ensures var last := script[StopIndex(script)];
      && !IsFailure(last)
      && SearchResult(script).value.hasRateLimit == ResponseOf(last).value.hasRateLimit
      && RateLimitOf(SearchResult(script).value) == RateLimitOf(ResponseOf(last).value)
      && (last.Statuses? && last.headers.None? ==> !SearchResult(script).value.hasRateLimit
                                                   && RateLimitOf(SearchResult(script).value) == RateLimit(0, 0, 0))
  {
  }

  /** There is no stop for "quota used up and page not full": a first page with a tweet
      is followed by another request whatever its remaining quota. */
  lemma NoQuotaStopRule(script: seq<Outcome>, rl: RateLimit, ids: seq<uint64>)
    requires HasStop(script) && script[0] == Statuses(Some(rl), ids)
    requires rl.remaining == 0 && 0 < |ids| < BatchSize
    ensures StopIndex(script) >= 1
  {
  }

  ghost predicate Distinct(s: seq<uint64>) {
    forall i, j :: 0 <= i < j < |s| ==> s[i] != s[j]
  }

  /** The service honours the bound each follow-up request carries: a follow-up page lists
      only IDs at most that request's max_id, and every tweet ID is positive. */
  ghost predicate HonoursBounds(cfg: Config, query: string, script: seq<Outcome>, n: nat)
    requires n <= |script|
  {
    && (forall i :: 0 <= i < n ==> forall t :: t in PageIds(script[i]) ==> 0 < t)
    && (forall i :: 1 <= i < n ==>
          forall t :: t in PageIds(script[i]) ==> t <= ParseDecimal(RequestAt(cfg, query, script, i)["max_id"]))
  }

  /** Bounds honoured over `n` responses are honoured over any fewer. */
  lemma HonoursBoundsPrefix(cfg: Config, query: string, script: seq<Outcome>, m: nat, n: nat)
    requires m <= n <= |script| && HonoursBounds(cfg, query, script, n)
    ensures HonoursBounds(cfg, query, script, m)
  {
  }

  /** With positive tweet IDs everything gathered is positive. */
  lemma {:induction false} PositiveGathered(cfg: Config, query: string, script: seq<Outcome>, n: nat)
    requires n <= |script| && HonoursBounds(cfg, query, script, n)
    ensures forall t :: t in Gathered(script, n) ==> 0 < t
    decreases n
  {
    if n > 0 {
      HonoursBoundsPrefix(cfg, query, script, n - 1, n);
      PositiveGathered(cfg, query, script, n - 1);
      assert Gathered(script, n) == Gathered(script, n - 1) + PageIds(script[n - 1]);
    }
  }

  /** A follow-up page whose bound is honoured lies strictly below the running minimum: its
      max_id is that minimum minus one, and the minimum is positive, so nothing wraps. */
  lemma BelowCursor(cfg: Config, query: string, script: seq<Outcome>, n: nat, i: nat)
    requires n <= |script| && HonoursBounds(cfg, query, script, n) && 1 <= i < n
    ensures 0 < Cursor(script, i)
    ensures forall t :: t in PageIds(script[i]) ==> t < Cursor(script, i)
  {
    HonoursBoundsPrefix(cfg, query, script, i, n);
    PositiveGathered(cfg, query, script, i);
    CursorBounds(script, i);
    CursorIsMinIdOfGathered(script, i);
    FollowUpRequest(cfg, query, script, i);
  }

  lemma DistinctConcat(a: seq<uint64>, b: seq<uint64>)
    requires Distinct(a) && Distinct(b)
    requires forall x, y :: x in a && y in b ==> x != y
    ensures Distinct(a + b)
  {
    forall i, j | 0 <= i < j < |a + b| ensures (a + b)[i] != (a + b)[j] {
      if j >= |a| && i < |a| {
        assert (a + b)[i] in a && (a + b)[j] in b;
      }
    }
  }

  /** Two sequences on either side of a threshold share no element. */
  lemma SeparatedBy(a: seq<uint64>, b: seq<uint64>, c: int)
    requires forall x :: x in a ==> c <= x
    requires forall y :: y in b ==> y < c
    ensures forall x, y :: x in a && y in b ==> x != y
  {
  }

  /** The disjoint, decreasing windows: when every page lists distinct IDs and the service
      honours the max_id each follow-up sends, the accumulated tweets have no duplicates, without any explicit
      deduplication. */
  lemma {:induction false} NoDuplicateTweets(cfg: Config, query: string, script: seq<Outcome>, n: nat)
    requires n <= |script|
    requires forall j :: 0 <= j < n ==> Distinct(PageIds(script[j]))
    requires HonoursBounds(cfg, query, script, n)
    ensures Distinct(Gathered(script, n))
    decreases n
  {
    if n > 0 {
      var m := n - 1;
      HonoursBoundsPrefix(cfg, query, script, m, n);
      NoDuplicateTweets(cfg, query, script, m);
      var before, page := Gathered(script, m), PageIds(script[m]);
      if m > 0 {
        BelowCursor(cfg, query, script, n, m);
        CursorBounds(script, m);
        SeparatedBy(before, page, Cursor(script, m));
      }
      DistinctConcat(before, page);
    }
  }

  /** The same for the tweets a successful search returns. */
  lemma SearchResultDistinct(cfg: Config, query: string, script: seq<Outcome>)
    requires HasStop(script) && SearchResult(script).Success?
    requires forall j :: 0 <= j < StopIndex(script) ==> Distinct(PageIds(script[j]))
    requires HonoursBounds(cfg, query, script, StopIndex(script))
    ensures Distinct(SearchResult(script).value.tweets)
  {
    NoDuplicateTweets(cfg, query, script, StopIndex(script));
  }
}
