# Dynatrace REST client, modelled in Dafny

This project models the REST client that monaco (Dynatrace monitoring as
code) uses to talk to a Dynatrace environment. It covers the operations
that `pkg/rest/client_test.go` exercises. Where the tests leave the
behaviour open, the model follows the client's design; those choices are
listed after the modules.

- **Construction** (`Client.NewClient`). The client rejects an empty
  environment URL, then an empty token, then a URL without the absolute
  `scheme://host` shape, with the texts "no environment url", "no token"
  and "... not valid". It stores a valid URL without one trailing slash.
- **Reading one object by id** (`Client.ReadById`). The id becomes one
  percent-encoded path segment, following sections 2.1 and 2.3 of RFC 3986.
  A 2xx reply returns the body octets unchanged. Any other status gives an
  error whose text contains "Response was".
- **Listing the known settings of a schema** (`KnownSettings.ListKnownSettings`).
  This is cursor pagination over the server's replies, with a retry budget
  for each next-page request.
  - The first request asks for `schemaIds`, `pageSize=500` and
    `fields=externalId,objectId`. In the model it is sent once.
  - In the model each later request carries only `nextPageKey`. It is sent up to
    1 + maxRetries times, until a 2xx reply arrives.
  - The listing ends at a page without a cursor. It also ends at a failed
    first request, or at a next-page request whose attempts are all spent.
  - A successful listing returns a map from external id to object id. A
    failed one returns an error and no map.

The server is a parameter of the model, not something the model performs.
`ReadById` takes a function from the request URL to the reply. A listing
takes a script of replies: reply i answers call i, and any call past the
end of the script goes unanswered. Each listing also returns the queries it
sent, one per call. Call counts and query parameters are therefore part of
the result.

The modules:

- `Results` holds `Option` and `Result`.
- `Text` holds substring search.
- `Url` holds the URL shape and the trailing-slash trim.
- `PathEscape` holds percent-encoding and decoding.
- `Http` holds replies.
- `Client` holds construction and reads by id.
- `KnownSettings` holds the listing loop itself.
- `ListingTrace` gives an independent description of a listing run, by
  reply position, and proves that the loop meets it and that it fixes the
  result.
- `ListingProperties` derives the caller-visible properties from it.
- `ClientScenarios` checks each test case of `client_test.go` against the
  model. The listing scenarios use a budget of three retries, the smallest
  that fits them.

Choices the tests leave open:

- Any RFC 3986 scheme is accepted; no test rejects a well-formed
  `http://` URL.
- `ReadById` sends one request; no test shows a retried read.
- The first listing request is not retried, and a next-page request gets
  three retries in the scenarios. The test server reads its expectations
  for call n before it counts the call (`pkg/rest/client_test.go:265`
  and `:283`), and each script holds exactly as
  many replies as calls are expected. A call past the script therefore
  fails inside the server and is never counted. So the tests cannot tell a
  budget of three retries from a larger one, or a first request sent once
  from one that is retried; three is the smallest budget that fits the
  four-call and the five-call test.
- Each listing request carries exactly its listed parameters: the first
  one `schemaIds`, `pageSize` and `fields`, and each next-page request
  only `nextPageKey`. The test server checks only that each expected
  parameter is present with its value (`pkg/rest/client_test.go:264-271`),
  and never that others are absent, so a client that carried extra
  parameters would fit the tests too.
- Escaping is strict RFC 3986: every octet outside the unreserved set
  becomes `%XX`, so `:` is sent as `%3A` and `%` as `%25`. Go's
  `url.PathEscape` escapes only `/`, `;`, `,` and `?` among the reserved
  characters of a path segment, so `$`, `&`, `+`, `=`, `:` and `@` pass it
  unchanged. The test only shows that the read succeeds, so either choice
  fits it, and the decoding round trip holds for both.
- The id is always appended to the API's URL as a segment. The escaping
  test reads through an API that is not single-configuration, which
  suggests that a single-configuration API is read from its URL alone.

## Model

| member | source | states |
|---|---|---|
| Client.NewClient | pkg/rest/client_test.go:32-66 | Each error holds exactly when its check is the first to fail: empty URL, then empty token, then invalid URL. Success holds exactly when all three pass. The stored URL is valid, equals the input without one trailing slash, and keeps token and retry settings. |
| Client.ConfigMessage | pkg/rest/client_test.go:32-61 | Each error text contains the words the tests look for: "no environment url", "no token", "not valid". |
| Url.ValidUrlIffAbsoluteShape | pkg/rest/client_test.go:48-66 | The first-colon validity check accepts exactly the strings that have some `scheme://host` split, with a host that does not start with `/`. |
| Url.TrimTrailingSlash | pkg/rest/client_test.go:37-41 | A URL ending in `/` loses exactly that one slash. Any other URL is unchanged. |
| Url.TrimKeepsValid | pkg/rest/client_test.go:37-41 | Trimming the slash of a valid URL leaves a valid URL. |
| Url.NoColonIsInvalid | pkg/rest/client_test.go:48-61 | A string without a colon, such as a local path or `https//host`, is not a valid URL. |
| Url.SchemeAndHostIsValid | pkg/rest/client_test.go:63-66 | Any scheme followed by `://` and a host not starting with `/` is a valid URL. |
| PathEscape.Escape | pkg/rest/client_test.go:79-88 | The escaped segment holds only unreserved characters and `%`, so no `/`, `:`, `?` or `#` reaches the path. It is between one and three times as long as the id. |
| PathEscape.UnescapeEscape | pkg/rest/client_test.go:79-88 | Decoding the escaped segment gives back the id exactly. |
| PathEscape.EscapeIsCanonical | pkg/rest/client_test.go:79-88 | Escaping writes canonical text only: upper-case `%XX` used only for octets outside the unreserved set. |
| PathEscape.EscapeUnescape | pkg/rest/client_test.go:79-88 | Canonical text that decodes to an id is that id's escaping, so ids and canonical segments correspond one to one. |
| PathEscape.EscapeAppend | pkg/rest/client_test.go:79-88 | Escaping works octet by octet: the escaping of a concatenation is the concatenation of the escapings. |
| PathEscape.EscapeKeepsUnreserved | pkg/rest/client_test.go:79-88 | Text made only of unreserved characters is sent unchanged. |
| Client.ReadById | pkg/rest/client_test.go:68-103 | The read succeeds exactly when the reply to the id's URL is 2xx, and then returns that reply's body. A non-2xx answer becomes a rejection that carries the status and body, and whose text contains "Response was". |
| Client.ReadErrorMessage | pkg/rest/client_test.go:68-77 | The text of a rejection contains "Response was". |
| Client.ReadByIdUrlCarriesId | pkg/rest/client_test.go:79-88 | The requested URL is the API's URL, `/`, and one segment that holds no `/` and decodes back to the id. |
| Client.ReadByIdUrlInjective | pkg/rest/client_test.go:79-88 | Different ids are read from different URLs. |
| KnownSettings.MergeContents | pkg/rest/client_test.go:116-175 | The merged map's keys are the old keys plus every item's external id. Each external id maps to the object id of its last item. Keys no item carries keep their value. |
| KnownSettings.FetchWithRetry | pkg/rest/client_test.go:193-257 | A request uses between 1 and 1 + maxRetries calls, and every attempt before the last failed. A fetched page is the body of the 2xx reply that ended the attempts. Exhaustion means exactly 1 + maxRetries failed attempts. |
| KnownSettings.ListKnownSettings | pkg/rest/client_test.go:176-192 | The first query asks for the schema. A failed first reply ends the listing after one call, with an error and no map. |
| ListingTrace.ListKnownSettingsIsRun | pkg/rest/client_test.go:116-257 | Every listing meets the reference run. It stops at the first stopping reply and at none before. Its first query asks for the schema, and each later one carries the latest cursor. It succeeds exactly when its last reply was 2xx, and then holds every accepted item. |
| ListingTrace.NextPagesIsRun | pkg/rest/client_test.go:135-158 | Following a cursor from any position meets the reference run from that position on. |
| ListingTrace.RunIsUnique | pkg/rest/client_test.go:116-257 | Two runs of the same schema over the same script send the same queries, agree on success and, when successful, return the same map. So the reference run fixes the listing. |
| ListingProperties.RequestParameters | pkg/rest/client_test.go:125-155 | The first request carries exactly schemaIds, pageSize=500 and fields=externalId,objectId. Every later request carries exactly one parameter, nextPageKey, set to the latest page's cursor. The tests check these parameters are present; that no others are sent is the model's choice. |
| ListingProperties.CompleteListing | pkg/rest/client_test.go:116-175 | A successful listing ends with a 2xx page without a cursor, inside the script. Its keys are exactly the external ids of all accepted pages, each bound to the object id of its last occurrence. |
| ListingProperties.StreakFailures | pkg/rest/client_test.go:193-257 | A streak of failed replies means they all failed and all got the same cursor. |
| ListingProperties.FailedListingSpentBudget | pkg/rest/client_test.go:176-257 | A failed listing either made one call that failed (the first request), or sent one next-page request 1 + maxRetries times in a row, all failing. |
| ListingProperties.AttemptsWithinBudget | pkg/rest/client_test.go:193-257 | No request is sent more than 1 + maxRetries times in a row: before the last call every failure streak is at most maxRetries long, and the last call ends a streak of at most 1 + maxRetries. Any call after the first means the first reply succeeded. |
| ClientScenarios.NoUrlIsRejected | pkg/rest/client_test.go:32-35 | An empty URL gives the "no environment url" error. |
| ClientScenarios.TrailingSlashIsTrimmed | pkg/rest/client_test.go:37-41 | `https://host/` is accepted and stored as `https://host`. |
| ClientScenarios.NoTokenIsRejected | pkg/rest/client_test.go:43-46 | An empty token gives "no token", for a valid URL and for a malformed one alike: the token is checked before the URL. |
| ClientScenarios.MalformedUrlsAreRejected | pkg/rest/client_test.go:48-61 | A URL without a colon, as in all three malformed test URLs, gives an invalid-URL error whose text contains "not valid". |
| ClientScenarios.ReadByIdReportsRejection | pkg/rest/client_test.go:68-77 | A 403 reply gives an error whose text contains "Response was". |
| ClientScenarios.ReadByIdEscapesTheId | pkg/rest/client_test.go:79-88 | An id shaped like `a:%m:c` is requested as `.../mock-api/a%3A%25m%3Ac`, and the read succeeds. |
| ClientScenarios.ReadByIdReturnsTheBody | pkg/rest/client_test.go:90-103 | The body octets 1, 3, 3, 7 of a 2xx reply come back unchanged. |
| ClientScenarios.ListsOnePage | pkg/rest/client_test.go:116-134 | One page without a cursor gives its single entry, after one call. |
| ClientScenarios.FollowsTheCursor | pkg/rest/client_test.go:135-158 | Two pages give both entries, after two calls, the second with nextPageKey=page42. |
| ClientScenarios.NoItemsGiveEmptyMap | pkg/rest/client_test.go:159-175 | An empty page gives the empty map, not an error, after one call. |
| ClientScenarios.FirstRequestErrorIsNotRetried | pkg/rest/client_test.go:176-192 | A 400 on the first request gives an error after exactly one call. |
| ClientScenarios.NextPageRecoversWithinRetries | pkg/rest/client_test.go:193-224 | Two failures and then a page give both entries, after four calls, the last three carrying page42. |
| ClientScenarios.NextPageFailsAfterRetries | pkg/rest/client_test.go:225-257 | Four failures in a row give an error, after five calls, the last four carrying page42. |

## Left out

- HTTP transport, TLS, the test server and JSON decoding are left out. Replies are already-decoded pages, and the server is a function or a script of replies.
- Backoff timing and sleeping between attempts are left out. Only the number of attempts is modelled.
- The real retry settings are left out. The listing takes `maxRetries` from the client, and the scenarios use three retries, the smallest budget that fits both the four-call and the five-call test.
- The flags of `api.NewApi` (single-configuration APIs and the rest) are left out. A read uses only the API's id and URL path.
- Client.ReadByIdUrl: always appends `/` and the escaped id to the API's URL; a single-configuration API, which presumably is read from its URL alone, is not modelled.
- Client.ReadById: sends one request and does not retry it, because no test shows a retried read.
- Url.ValidUrlIffAbsoluteShape: accepts any RFC 3986 scheme, not only `https`, because no test rejects a well-formed `http://` URL. Full URL syntax (ports, user info, IPv6 hosts) is also left out; the host is only required to be non-empty and not to start with `/`.
- PathEscape.Escape: works on octets. An ASCII character is its own octet; a character from 128 on, which Go sends as its UTF-8 octets (`é` as `%C3%A9`), is left out, and `Unescape` does not decode it.
- PathEscape.Escape: escapes every octet outside the unreserved set, including `$ & + = : @`, which `url.PathEscape` sends unchanged; client_test.go:79-88 pins only that the read succeeds.
- KnownSettings.ListKnownSettings: models only the query parameters of each request, not the request URL; the listing does not use the client's environment URL or token, and the tests never read the request path.
- KnownSettings.ListKnownSettings: error replies are not read. Their body text is left out, and a failure reports the reply or the cursor that failed, not a message.
- The continue-on-error deployment of `cmd/monaco/v1` is left out. Its orchestrator and dependency-graph code is not part of this model.
