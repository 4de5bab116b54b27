# twittersearchgo: the search-optimised Twitter client, modelled in Dafny

twittersearchgo wraps a Twitter REST client with one operation, `Search(query)`. It
sends a first request to the standard search endpoint for up to `BatchSize` (100) tweets.
After that it pages backwards in time. Each follow-up request sets `MaxID` to one below
the smallest tweet ID seen so far. It stops at the first follow-up page that comes back
empty. The tweets of all pages are concatenated in request order. The rate-limit figures
of the last response are reported alongside them.

The client's settings are four fields:

- `SinceID` and `MaxID` are stored as given.
- `ResultType` is normalised to "recent", "popular" or "mixed".
- `Language` defaults to "en".

The model has four files:

- `wrappers.dfy`: the `Option` and `Result` datatypes.
- `numbers.dfy` (module `Numbers`):
  - Go's `uint32` and `uint64`.
  - The wrapping decrement `minID - 1`.
  - Decimal formatting, as `strconv` does it, and its inverse.
- `search_model.dfy` (module `SearchModel`): specification functions on values.
  - The transport is a finite script of `Outcome`s, one per request. An outcome is one of:
    - the request could not be built;
    - the send failed;
    - the reply could not be parsed;
    - a quota refusal with its figures;
    - a page of tweet IDs with optional rate-limit headers.
  - From the settings, the query and that script, the functions say:
    - where the search stops (`StopIndex`);
    - which requests it sends (`Requests`);
    - what it returns (`SearchResult`);
    - what `MaxID` is left at (`FinalMaxID`).
  - Lemmas state the properties of these functions.
- `search_client.dfy` (module `TwitterSearch`): the imperative client.
  - `SearchTwitterClient` is a class with the Go struct's fields and setters.
  - Its query-parameter assembly is a sequence of map updates.
  - `Search` is a `while` loop that mutates `maxID`. It is proved to agree with the
    specification functions.
  - `ScriptedTransport` hands out the scripted outcomes and logs each request's parameters.

The model keeps three details of the code exactly as written:

- The code has no stop for remaining quota 0 and a short page. Follow-ups stop only on an empty page (`NoQuotaStopRule`).
- `minID - 1` wraps to 2^64 - 1 when the running minimum is 0 (`CursorWrapsAtZero`).
- An empty query is sent as `q=`.

The property lemmas are stated about these reference definitions in `SearchModel`:

| definition | source | defines |
|---|---|---|
| `SearchResult` | twittersearchgo.go:113-211 | the error of the stopping response, or the tweets of every page before it with the stopping response's rate-limit fields |
| `Gathered` | twittersearchgo.go:186 | the tweet IDs of the first n responses, concatenated in request order |
| `MinId` | twittersearchgo.go:170-175 | the least ID of a page, folded from the sentinel 2^64 - 1 |
| `Cursor` | twittersearchgo.go:204-208 | the running minimum after n responses |
| `FinalMaxID` | twittersearchgo.go:180 | MaxID after the search: the caller's value if only one request was made, otherwise the last follow-up's bound |
| `SettingsAt` | twittersearchgo.go:180 | the settings in force for request i: the caller's for the first, and for each follow-up the caller's with MaxID set to the running minimum minus one (uint64 wrap) |
| `RequestAt` | twittersearchgo.go:115-127 | the parameters of request i: the first-request set for i = 0, the follow-up set of lines 216-226 otherwise, built from `SettingsAt` |
| `Requests` | twittersearchgo.go:179-181 | the first n requests of a search, in order |

## Model

| member | source | states |
|---|---|---|
| TwitterSearch.SearchTwitterClient.constructor | twittersearchgo.go:60-77 | a new client has every setting at Go's zero value (0, 0, "", "") |
| TwitterSearch.SearchTwitterClient.SetSinceID | twittersearchgo.go:80-82 | SinceID becomes the argument; no other field may change |
| TwitterSearch.SearchTwitterClient.SetMaxID | twittersearchgo.go:90-92 | MaxID becomes the argument; no other field may change |
| TwitterSearch.SearchTwitterClient.SetResultType | twittersearchgo.go:95-101 | the result is always one of "recent", "popular", "mixed"; "recent" and "popular" are kept; every other value, the empty string included, becomes "mixed" |
| TwitterSearch.SearchTwitterClient.SetLanguage | twittersearchgo.go:104-110 | the language is never empty afterwards; a non-empty argument is kept; "" becomes "en" |
| SearchModel.RequestParams | twittersearchgo.go:115-127 | the only keys are count, lang, max_id, q, result_type and since_id; count is "100", q is the query and result_type the client's; lang appears iff Language is non-empty, since_id iff SinceID > 0, max_id iff the request is a follow-up or MaxID > 0; each value is the setting, formatted in decimal for numbers |
| TwitterSearch.SearchTwitterClient.FirstPageParams | twittersearchgo.go:115-127 | the map built by the first request's successive updates is the first-request parameter set of the current settings |
| TwitterSearch.SearchTwitterClient.NextPageParams | twittersearchgo.go:216-226 | the map built by a follow-up's updates is the follow-up parameter set of the current settings, so max_id is always present |
| SearchModel.WithRateLimit | twittersearchgo.go:141-146 | copying a quota record sets HasRateLimit and makes the three figures that record's, leaving the tweets alone |
| SearchModel.ResponseOf | twittersearchgo.go:239-264 | a response is an error exactly for the three failure outcomes, carrying their error; otherwise its tweets are the page's IDs (none for a quota refusal); a refusal's figures override the headers; a page without headers has HasRateLimit false and zero figures |
| TwitterSearch.ScriptedTransport.Exchange | twittersearchgo.go:229-237 | one exchange consumes exactly the next scripted outcome and logs exactly the parameters sent |
| TwitterSearch.SearchTwitterClient.SearchForMore | twittersearchgo.go:214-267 | one follow-up request with the current settings: its parameters are logged, and the result is the response of the next scripted outcome |
| TwitterSearch.LowerMin | twittersearchgo.go:170-175 | folding a page into the running minimum gives the lesser of that minimum and the page's least ID |
| Numbers.Min | twittersearchgo.go:172-174 | the minimum is at most both arguments and is one of them |
| Numbers.Decrement | twittersearchgo.go:180 | `minID - 1` on uint64: incrementing the result modulo 2^64 gives back the argument; below a positive argument; 0 wraps to 2^64 - 1 |
| Numbers.DecimalString | twittersearchgo.go:121 | FormatUint in base 10 yields a non-empty string of digits with no leading zero |
| Numbers.ParseDecimalString | twittersearchgo.go:121 | reading the decimal string back gives the number, so max_id and since_id carry exactly their values |
| SearchModel.StopIndex | twittersearchgo.go:197-202 | the search stops at the first outcome that is not a page with at least one tweet; every earlier outcome is such a page |
| SearchModel.MinIdIsLeast | twittersearchgo.go:170-175 | the fold from the sentinel 2^64 - 1 is at most every ID and is one of them; with no IDs it is the sentinel |
| SearchModel.CursorBounds | twittersearchgo.go:204-208 | after n responses the running minimum is at most every gathered ID; it is one of them once any were gathered, and the sentinel before |
| SearchModel.CursorIsMinIdOfGathered | twittersearchgo.go:204-208 | the running minimum equals the minimum over all tweets gathered so far |
| SearchModel.CursorIsMinimumSeen | twittersearchgo.go:170-175 | once the first page held tweets, after each processed page the running minimum is one of the IDs seen and at most all of them |
| SearchModel.CursorNeverIncreases | twittersearchgo.go:204-208 | the running minimum never increases from one iteration to a later one |
| SearchModel.RequestsAt | twittersearchgo.go:179-181 | entry i of the request log is request i, whatever the log's length |
| SearchModel.FirstRequest | twittersearchgo.go:120-127 | the first request carries max_id iff MaxID > 0 and since_id iff SinceID > 0, each with exactly the client's value |
| SearchModel.FollowUpRequest | twittersearchgo.go:216-226 | follow-up request i always carries max_id, whose value is the minimum over all tweets of the earlier pages minus one with uint64 wrap-around; q, result_type, lang and since_id are the client's own |
| SearchModel.CursorWrapsAtZero | twittersearchgo.go:180 | when the running minimum is 0, the next max_id is 2^64 - 1, not an error |
| SearchModel.ProgressStart | twittersearchgo.go:160-177 | a first page with tweets leaves the search with one request made, that page's tweets and headers in the result, and the minimum set to the page's least ID |
| SearchModel.ProgressStep | twittersearchgo.go:179-208 | one loop turn: the next follow-up carries max_id one below the running minimum; a failure yields the search's result, the error; an empty page yields the search's result, every gathered tweet; any other page advances the state by one response, one appended block of tweets and one logged request |
| TwitterSearch.SearchTwitterClient.Search | twittersearchgo.go:113-211 | the method returns exactly `SearchResult` of the script, consumes the outcomes up to the stopping one, and logs exactly `Requests` of that many; MaxID ends at `FinalMaxID`; SinceID, ResultType and Language are unchanged |
| SearchModel.FirstPageStops | twittersearchgo.go:141-162 | an empty first page, a quota refusal or a failure ends the search after one request; a failure returns its error; otherwise there are no tweets, and a refusal's figures are reported |
| SearchModel.RateLimitedStops | twittersearchgo.go:250-264 | a quota refusal after n full pages ends the search with exactly those pages' tweets and the refusal's figures |
| SearchModel.FailureDiscardsTweets | twittersearchgo.go:181-184 | a failure of any request, first or follow-up, discards everything gathered and returns that failure's error unchanged |
| SearchModel.LastResponseRateLimit | twittersearchgo.go:187-190 | on success the rate-limit fields are those of the last response; if that page lacked headers, HasRateLimit is false and the figures are zero |
| SearchModel.NoQuotaStopRule | twittersearchgo.go:197-202 | a first page that is short and reports zero remaining quota is still followed by another request |
| SearchModel.GatheredPrefix | twittersearchgo.go:186 | the tweets of the first i responses stay unchanged at the front of what later responses give |
| SearchModel.PageBlock | twittersearchgo.go:186 | each page's tweets appear as one contiguous block, right after those of the earlier pages, with no reordering or deduplication |
| SearchModel.BelowCursor | twittersearchgo.go:179-181 | if the service returns only positive IDs and keeps each follow-up page at or below the max_id that request carried, then the running minimum is positive and that page lies strictly below it |
| SearchModel.NoDuplicateTweets | twittersearchgo.go:179-208 | if each page lists distinct IDs and the service keeps each follow-up page at or below the max_id it was sent (with positive IDs), the gathered tweets contain no duplicate: the bound minimum - 1 alone keeps pages disjoint |
| SearchModel.SearchResultDistinct | twittersearchgo.go:186 | under the same conditions on the pages before the stop, a successful search returns no duplicate tweet |

## Left out

- `NewClientUsingAppAuth` and `NewClientUsingUserAuth` (twittersearchgo.go:60-77) configure OAuth in a foreign library. They are reduced to the class constructor, which takes the transport as a parameter.
- `SetLogger` and the debug logging in `Search` are side-effect-only diagnostics. So is the `counter` variable, which is read only by the logging.
- `http.NewRequest`, `SendRequest` and `response.Parse` perform network I/O and JSON decoding. They are replaced by the scripted outcomes. A failed `http.NewRequest` is the `RequestRejected` outcome.
  - The transport log records its parameters too, although no request was sent for it.
- `url.Values.Encode` and the `fmt.Sprintf` URL string: percent-encoding is done by a library. Parameters are modelled as a key-to-value map.
- Tweets are reduced to their IDs.
- `ResponseOf` gives a quota refusal no tweets. This assumes that `Statuses()` is nil or empty on a result `Parse` did not decode, as the checks at twittersearchgo.go:160 and 262 also assume. The twittergo decoder is not part of this model.
- A search that stops on its first page returns a nil `Tweets` slice (twittersearchgo.go:140, 161); every other successful search returns a non-nil one (186). A Dafny `seq` has no nil, so the model returns the empty sequence in both cases.
- `RateLimitReset` is a `time.Time` that is only ever copied. It is modelled as an opaque integer, with 0 for Go's zero time.
- TwitterSearch.SearchTwitterClient.Search: requires a script that contains a stopping outcome. The Go loop has no bound and would keep requesting from a service that never returns an empty page. The model covers only searches that end.
- TwitterSearch.SearchTwitterClient.SearchForMore: requires at least one outcome left. It stands for a transport that always answers.
