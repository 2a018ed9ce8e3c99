# Quote acceptance backend: token cache, quote read and quote response

This project is a Dafny model of the core of a small backend. The backend lets
a public quote-acceptance page read and answer "Quote" records held in the Zoho CRM.
Three pieces are modelled:

- **The access-token cache** (`lib/zohoAuth.js`). One process-wide CRM access
  token is obtained with the refresh-token grant (section 6 of RFC 6749).
  - The token is served while the current instant is before its expiry.
  - Otherwise the cache starts one refresh, or joins the refresh already in
    flight (single flight).
  - A success stores the token with a five-minute safety margin.
  - A failure leaves the cache as it was.
  - Invalidation forgets the token.
  - The module state is the class `ZohoAuth.TokenCache`: `cachedToken`,
    `expiryMs`, and `refreshInFlight` for "`refreshPromise` is set".
  - Awaiting a refresh is split into two events. `GetAccessToken` answers
    `Cached`, `Joined` or `Started`. A later `CompleteRefresh` settles the
    refresh and hands its one outcome to everyone who started or joined it.
  - Each method is proved to perform a transition stated as a function on
    `CacheState`. The lemmas about runs of events are stated on those
    functions.
- **The quote read** (`api/quote.js`, module `QuoteRead`).
  - The checks come first: missing `qid` or `token` gives 400, no record
    gives 404, and a link token that differs from `Acceptance_Token` in any
    way gives 403.
  - Then the displayed status is derived. A raw `Discarded` always wins.
    Otherwise a passed link-token expiry or a passed `Valid_Till` gives
    `Expired`, for Accepted and Denied quotes too. Otherwise the raw status
    is shown, `Pending` when it is absent.
  - Then the public view is shaped.
- **The quote response** (`api/respond.js`, modules `QuoteRespond` and `ZohoDate`).
  - The checks come first: a method other than POST gives 405, and a
    missing `qid` or `action` gives 400.
  - The action is normalised by a case-insensitive prefix: `accept`, then
    `deny`, then `nego`.
  - The handler refreshes an access token itself. A reply without
    `access_token` gives 401 and nothing is written.
  - The update map is built. `Acceptance_Token_Expires` is added, formatted
    as `yyyy-MM-ddTHH:mm:ss`, only for Accepted and Denied.
  - Exactly one PUT is issued. The answer is 200 if and only if the CRM's
    first entry has code `SUCCESS`. Any other JSON reply gives 400, and a
    reply that is not JSON gives 500.

Neither handler uses the token cache. Each calls the refresh endpoint itself
on every request, and the model does the same. Upstream replies are inputs of
the handler functions (`Crm.TokenReply`, `QuoteRead.ReadReply`,
`QuoteRespond.WriteReply`). Each handler returns its response together with
the list of upstream calls it issued (`Crm.Call`). "No upstream call before
the 400" and "exactly one PUT" are therefore statements about that list.

The model follows the code. These behaviours one might expect are not
implemented by it:

- there is no refresh cooldown after rate limiting;
- there is no retry of the write after an invalid-token answer;
- the link token is not trimmed or URL-decoded before comparison;
- a decided quote gets no read without a valid token;
- the respond handler takes no link token, so anyone who knows a quote's id
  can decide it, or decide it again (`QuoteRespond.DecisionNeedsNoLinkToken`);
- the written link-token expiry gates no later read or write. A read with the
  token still answers 200 with the full view, shown as `Expired`
  (`QuoteRead.ExpiredLinkStillReads`);
- a decided quote is shown as `Expired` once a deadline has passed.

On the last point, `QuoteRead.DecisionFirstStatus` states the other order,
in which a decision outranks its deadline. It is used for comparison only, in
two lemmas. The code's order has a consequence. Accepting or denying a quote
writes `Acceptance_Token_Expires` as the local time of the decision, with no
time zone (`QuoteRespond.FinalDecisionExpiryReadsBack`). Suppose the CRM
reads that text back as the same instant. Then every later read sees a passed
link-token expiry and shows the decided quote as `Expired`
(`QuoteRead.DecidedQuoteShownExpired`). The model does not prove that
assumption, because it takes date parsing and the local-time getters as
inputs.

Time is an integer number of milliseconds. A CRM date field is carried with
the instant its text denotes (`QuoteRead.CrmDate`). The time at which the
update is built is a `ZohoDate.DateTime`, split into the numbers that the
local-time getters return.

## Model

| member | source | states |
|---|---|---|
| `ZohoAuth.ExpiryAfterRefresh` | lib/zohoAuth.js:32-35 | the stored expiry is never before the refresh time. A missing or zero `expires_in` gives now + 3,300,000 ms. A lifetime above the 5-minute skew gives now + lifetime - skew. A lifetime at most the skew gives now |
| `ZohoAuth.GetAnswer` | lib/zohoAuth.js:40-49 | the caller is served from the cache exactly when a non-empty token is cached and now < expiry, and then gets that token. Otherwise it starts a refresh exactly when none is pending, and joins the pending one otherwise |
| `ZohoAuth.AfterGet` | lib/zohoAuth.js:40-49 | a get never changes the cached token or the expiry. A served get changes nothing. Afterwards a refresh is pending exactly when one already was or the cache could not serve |
| `ZohoAuth.SettleOutcome` | lib/zohoAuth.js:19-30 | a refresh succeeds exactly when the reply is JSON with a truthy `access_token`, and then yields that token. A network failure, a non-JSON body or a missing token is an error |
| `ZohoAuth.AfterSettle` | lib/zohoAuth.js:22-46 | settling always clears the pending refresh, whether it succeeded or failed. A failure leaves the token and expiry unchanged. A success caches the new token and stores exactly `ExpiryAfterRefresh` of the completion time and `expires_in`, which is at or after the completion time |
| `ZohoAuth.AfterInvalidate` | lib/zohoAuth.js:51-54 | invalidation sets the token to null and the expiry to 0 and keeps the pending refresh. Afterwards the cache serves no request at any instant |
| `ZohoAuth.TokenCache.constructor` | lib/zohoAuth.js:5-7 | the cache starts with no token, expiry 0 and no refresh pending |
| `ZohoAuth.TokenCache.GetAccessToken` | lib/zohoAuth.js:40-49 | the method answers and updates the fields exactly as `GetAnswer` and `AfterGet` say |
| `ZohoAuth.TokenCache.CompleteRefresh` | lib/zohoAuth.js:11-46 | `doRefresh` together with the `finally` that clears the promise. The method yields `SettleOutcome` and leaves the fields as `AfterSettle` says |
| `ZohoAuth.TokenCache.Invalidate` | lib/zohoAuth.js:51-54 | the method leaves the fields as `AfterInvalidate` says |
| `ZohoAuth.RefreshesBalance` | lib/zohoAuth.js:45-48 | in any feasible run of gets, settlements and invalidations: pending at start + refreshes started = refreshes settled + pending at end |
| `ZohoAuth.AtMostOneRefreshOutstanding` | lib/zohoAuth.js:45-48 | from the initial state, the refreshes started never exceed the refreshes settled by more than one. One is pending exactly when they differ by one |
| `ZohoAuth.SingleFlightBurst` | lib/zohoAuth.js:40-49 | suppose no refresh is pending and a burst of callers finds the cache unable to serve. Then the first caller starts the only refresh and every later caller joins it |
| `ZohoAuth.AllJoinPending` | lib/zohoAuth.js:45-48 | while a refresh is pending and the cache cannot serve, every caller joins it |
| `ZohoAuth.AllServedFromCache` | lib/zohoAuth.js:41-44 | while the cache serves, every caller gets the cached token and no refresh starts |
| `ZohoAuth.RetryAfterFailure` | lib/zohoAuth.js:45-46 | after a failed refresh, the next caller the cache cannot serve starts a new refresh |
| `ZohoAuth.RefreshedTokenServes` | lib/zohoAuth.js:32-44 | after a success, the new token is served exactly before the stored expiry |
| `ZohoAuth.ShortLifetimeNeverServed` | lib/zohoAuth.js:33-35 | a token whose lifetime is at most the 5-minute skew is never served at or after its refresh time |
| `ZohoAuth.InvalidateIdempotent` | lib/zohoAuth.js:51-54 | invalidating twice is the same as invalidating once |
| `QuoteRead.Instant` | api/quote.js:41-44 | a date field yields a deadline exactly when it is present, non-empty and a valid date, and then the deadline is the instant its text denotes. An invalid date compares false with now, so it acts as no deadline |
| `QuoteRead.StatusOrPending` | api/quote.js:39 | the raw status when it is present and non-empty, and `Pending` otherwise |
| `QuoteRead.DisplayStatus` | api/quote.js:39-50 | a raw `Discarded` always gives `Discarded`. For any other raw status, Accepted and Denied included, the result is `Expired` if and only if the link-token expiry or `Valid_Till` has passed (or the raw status is literally `Expired`). Otherwise the result is the raw status, defaulting to `Pending` |
| `QuoteRead.ResolveStatus` | api/quote.js:39-50 | the handler's three assignments to `status` (default, expiry override, discard override) compute `DisplayStatus` |
| `QuoteRead.DecidedQuoteShownExpired` | api/quote.js:44-46 | an Accepted or Denied quote with a passed deadline is shown as `Expired`. The decision-first order would show the decision |
| `QuoteRead.OpenQuotesAgree` | api/quote.js:39-50 | for an absent, Pending or Negotiated status with no link-token expiry, the handler's order and the decision-first order agree |
| `QuoteRead.ShapeProduct` | api/quote.js:63-67 | a product entry keeps its `id` and `quantity`, and takes `product_name` from `product?.name` |
| `QuoteRead.ShapeProducts` | api/quote.js:63-67 | the products list has the length and order of `Product_Details`, entry by entry |
| `QuoteRead.Company` | api/quote.js:58 | `company` is the account's name when it is non-empty, and `""` otherwise |
| `QuoteRead.Shape` | api/quote.js:53-68 | the view's status is `DisplayStatus` of the record's fields at now. The products mirror `Product_Details`, or are empty when it is absent. `company` defaults to `""`. `contact_name` is the contact's `name`, absent when there is no contact. `valid_till` is the field's text. `id`, `quote_number`, `subject`, `grand_total` and `terms` are copied unchanged |
| `QuoteRead.ReadQuote` | api/quote.js:1-74 | 400 if and only if `qid` or `token` is missing, and then no upstream call. A refresh that fails on the network, or whose reply is not JSON or is JSON `null`, gives 500 after one call. Any other JSON reply, even one without `access_token`, is followed by the GET. A GET that fails or is not JSON gives 500. 404 if and only if the reply has no record, and then the answer carries the CRM's reply. 403 if and only if the stored token differs from the supplied one. 200 if and only if they are equal, and then the view is `Shape` of the first record |
| `QuoteRead.TokenMustMatchExactly` | api/quote.js:34-36 | once a record is found, the answer is 200 exactly when the stored token equals the supplied one, and 403 exactly when it differs |
| `QuoteRead.ExpiredLinkStillReads` | api/quote.js:34-50 | with the right token and a passed link-token expiry, the answer is still 200 with the full view, whose status is `Expired` or `Discarded` |
| `QuoteRead.DiscardedShownDiscarded` | api/quote.js:48-50 | a Discarded record is shown as `Discarded` whatever its deadlines |
| `Crm.OrNull` | api/respond.js:56-57 | the JavaScript `comment or null` idiom: a non-empty string is kept, an empty or absent one becomes null, and the result is never `""` |
| `QuoteRespond.Lower` | api/respond.js:15 | lower-casing keeps the length and maps each character |
| `QuoteRespond.Norm` | api/respond.js:14-20 | the result is `Accepted`, `Denied`, `Negotiated` or the action itself. Prefixes of the lower-cased action are tried in the order `accept`, `deny`, `nego`. An action matching none is returned unchanged |
| `QuoteRespond.NormIdempotent` | api/respond.js:14-20 | normalising twice equals normalising once. `Denied` survives because it falls through to the unchanged branch |
| `QuoteRespond.NormDenied` | api/respond.js:15-19 | `Denied` normalises to itself because its lower case starts with none of the three prefixes |
| `QuoteRespond.NormIgnoresCase` | api/respond.js:15-19 | two actions with the same lower case normalise alike, except when neither is recognised and each is returned as given |
| `QuoteRespond.NormExamples` | api/respond.js:14-20 | `accepted please` gives `Accepted`, `DENY` gives `Denied` and `negotiate` gives `Negotiated`. Lower-case `denied` is returned unchanged |
| `QuoteRespond.UpdateMapFor` | api/respond.js:54-62 | the keys are exactly status, response and acknowledged-by, plus `Acceptance_Token_Expires` if and only if the action is Accepted or Denied. The status is the final action. The comment and name are written as null when empty. The expiry is the formatted time |
| `QuoteRespond.BuildUpdateMap` | api/respond.js:54-62 | building the map and then conditionally adding the expiry yields `UpdateMapFor` |
| `QuoteRespond.FinalDecisionExpiryReadsBack` | api/respond.js:60-62 | for a final decision, the expiry text written reads back as the time of the decision |
| `QuoteRespond.Respond` | api/respond.js:1-97 | 405 if and only if the method is not POST. 400 for a missing `qid` or `action`. No upstream call before either. A missing body gives 500. A refresh that fails on the network, or whose reply is not JSON or is JSON `null`, gives 500 after the refresh call only. A JSON refresh reply without `access_token` gives 401 echoing the reply, after the refresh call only. Otherwise the calls are the refresh then one PUT of `SentFor`. 200 with the normalised action and the sent map if and only if the first entry's code is `SUCCESS`. Any other JSON answer gives 400 with the sent map and the CRM's reply, and a PUT that fails or is not JSON gives 500 |
| `QuoteRespond.WriteSucceeded` | api/respond.js:79-80 | the write counts as a success only for a JSON reply with at least one entry, and then exactly when the first entry's code is `SUCCESS` |
| `QuoteRespond.WriteReplyDecides` | api/respond.js:77-95 | once the PUT is issued, the answer is 200 exactly for a success, 400 exactly for any other JSON reply, and 500 exactly when the reply is not JSON or the request failed |
| `QuoteRespond.AtMostOneWrite` | api/respond.js:65-75 | a request issues at most one PUT, and exactly one when it gets past the checks and obtains an access token |
| `QuoteRespond.AcknowledgedFinalDecisionSetsExpiry` | api/respond.js:60-85 | a 200 for an Accepted or Denied action means the CRM reported `SUCCESS` and the sent map set the link-token expiry to the decision time |
| `QuoteRespond.DecisionNeedsNoLinkToken` | api/respond.js:7-11 | any POST naming a non-empty `qid` and `action` is acknowledged with the normalised action and its update, once a token is granted and the CRM reports `SUCCESS`. No link token is asked for |
| `ZohoDate.Decimal` | api/respond.js:42 | `String(n)` of a natural number is a non-empty run of digits that starts with `0` only for zero |
| `ZohoDate.IntDecimal` | api/respond.js:44 | `String(n)` of an integer is non-empty and starts with `-` exactly when the number is negative. It is all digits otherwise |
| `ZohoDate.Pad2` | api/respond.js:42 | `pad` gives at least two digits, and exactly two for a number below 100 |
| `ZohoDate.Format` | api/respond.js:41-51 | `formatZohoDate` is the year's text followed by at least 15 characters, and by exactly 15 when the fields are in the getters' ranges |
| `ZohoDate.TailShape` | api/respond.js:45-49 | after the year come `-`, `-`, `T`, `:`, `:`, each followed by its two-digit padded field, at fixed places |
| `ZohoDate.DecimalRoundTrip` | api/respond.js:42 | the decimal text of a natural number reads back as that number |
| `ZohoDate.DecimalLength` | api/respond.js:42 | decimal text has 1 digit below 10, 2 below 100 and 4 from 1000 to 9999 |
| `ZohoDate.Pad2Facts` | api/respond.js:42 | `pad` of a number below 100 is exactly two digits that read back as the number |
| `ZohoDate.IntRoundTrip` | api/respond.js:43-44 | the year's text, with a sign when it is negative, reads back as the year |
| `ZohoDate.FormatSplit` | api/respond.js:41-51 | the text is the year followed by a 15-character tail. The tail has `-`, `-`, `T`, `:`, `:` at fixed places and the five padded fields between them |
| `ZohoDate.FourDigitYearShape` | api/respond.js:41-51 | with a four-digit year the text has 19 characters, separators at positions 4, 7, 10, 13 and 16, and digits everywhere else |
| `ZohoDate.ParseFormat` | api/respond.js:41-51 | every field of a date-time in the getters' ranges reads back from the formatted text |

## Left out

- HTTP transport, `fetch`, environment variables and URL assembly are not modelled. Neither is parsing response bodies as JSON. Each upstream reply is an input variant: unavailable, not JSON, or the fields the code reads.
- Promises and real concurrency are not modelled. Awaiting a refresh is an explicit start-or-join event followed by a settle event, and callers who joined share the one outcome by construction.
- Parsing CRM date strings with `new Date` and reading local-time getters are inputs, not computations. They arrive as an instant (or none, for an invalid date) and as split date-time fields.
- `QuoteRespond.Lower`: only ASCII letters are lower-cased, because JavaScript's full Unicode case mapping is not modelled.
- `ZohoAuth.ExpiryAfterRefresh`: `expires_in` is a whole number of seconds. A non-numeric value, which JavaScript turns into `NaN` so the token is never served, and a fractional value are not modelled.
- Query and body values are strings. JavaScript would also accept an array from a repeated query parameter (which never equals the stored token) or a number; these are not modelled.
- A `null` entry in a CRM `data` array, a `null` entry in `Product_Details` (on which reading `p.id` throws and the read answers 500) and a `Product_Details` that is not an array are not modelled.
- `QuoteRead.ReadQuote`: the 500 answer does not carry the exception's message, because that text comes from the JavaScript runtime. The same holds for `QuoteRespond.Respond`.
- The value of the access token that quote.js obtains is not modelled. The handler passes it on unchecked, and the CRM's answer is an input.
- api/pdf.js, api/proposal-pdf.js and api/oauth/callback.js (PDF rendering, attachment upload and the authorization-code exchange) are not part of this model.
- Logging is not modelled.
