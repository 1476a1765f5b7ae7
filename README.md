# PagerDuty teams connector: the GetPage read path, modelled in Dafny

The connector answers one paginated read, GetPage, for the adapter
framework. It validates the paging request, forces the datasource address
onto https, issues one HTTP GET against `{address}/{entity}?limit={pageSize}&offset={cursor}`,
hands non-200 statuses with their Retry-After header to the framework's
status classifier, decodes the `{"teams": [...], "limit", "offset", "more"}`
envelope, derives an opaque forward-only cursor (`limit + offset` when
`more` is set, empty otherwise), and converts the records through the
framework's object converter.

Modules, one per source file or component:

- `Numbers` (numbers.dfy): Go's `int64` addition with wrap-around, `%d`
  formatting, and a reference decimal reader used to state the cursor round trip.
- `Framework` (framework.dfy): the framework's error, entity, request and page
  types. The request is a class because the adapter rewrites its `address` in place.
- `Client` (client.dfy): the `Client` interface and its `Request`/`Response` records.
- `Validation` (validation.dfy): the ordered, fail-fast request validation.
- `Datasource` (datasource.dfy): the allow-list, URL and headers, the status
  branch, envelope decoding and cursor derivation.
- `Adapter` (adapter.dfy): validate-then-fetch, https normalisation, error
  propagation order and cursor pass-through.

Collaborators outside the core are parameters: `Config.Validate`,
`web.HTTPError` and `web.ConvertJSONObjectList` (the `Collaborators` record),
the `Client` implementation behind the adapter (a function from request to
reply), `json.Unmarshal` (a `Decoder`), and `net/http` (a `Transport` that says
whether a URL makes a request and what a request gets back). The adapter's
methods return a ghost trace of the collaborator calls they make, so that
"the client is never called" and "the classifier is asked before the
converter" are stated outright.

## Model

| member | source | states |
|---|---|---|
| `Numbers.AddInt64` | pkg/adapter/datasource.go:123 | `Limit+Offset` on int64: the plain sum when it fits, otherwise the sum shifted by 2^64 (two's-complement wrap) |
| `Numbers.NatToDecimal` | pkg/adapter/datasource.go:123 | the decimal rendering is a non-empty run of digits without a leading zero |
| `Numbers.FormatInt` | pkg/adapter/datasource.go:123 | `%d` gives digits for non-negative numbers and a minus sign then digits for negative ones, and no other characters |
| `Numbers.NatToDecimalValue` | pkg/adapter/datasource.go:123 | the digits written for n have the value n |
| `Numbers.FormatIntRoundTrip` | pkg/adapter/datasource.go:123 | reading back a `%d` rendering gives the number rendered |
| `Numbers.FormatIntInjective` | pkg/adapter/datasource.go:123 | two cursors are equal exactly when the numbers they render are |
| `Datasource.AllowListIsTeams` | pkg/adapter/datasource.go:15-40 | an entity ID is allowed exactly when it is "teams", whose unique-ID attribute is "id" |
| `Datasource.HeaderGet` | pkg/adapter/datasource.go:83 | `Header.Get`: the value of the first header stored under the name, and "" when there is none |
| `Datasource.RequestURL` | pkg/adapter/datasource.go:53 | the URL is base URL, "/", entity, "?limit=", a decimal rendering that reads back as the page size, then "&offset=" and the cursor verbatim; an empty cursor leaves "offset=" empty |
| `Datasource.DatasourceHeadersLookup` | pkg/adapter/datasource.go:69-71 | looking up the three added headers gives the token unchanged for Authorization and the fixed Accept and Content-Type values |
| `Datasource.OutgoingRequest` | pkg/adapter/datasource.go:53-71 | the request handed to the transport is a GET of that URL whose Authorization header is the token unchanged, with the fixed Accept and Content-Type values |
| `Datasource.OffsetCarriesCursor` | pkg/adapter/datasource.go:53 | a cursor made only of digits and minus signs (what `%d` writes) is the raw text of the URL's offset parameter |
| `Datasource.ParseResponse` | pkg/adapter/datasource.go:111-129 | a decode failure gives no objects, an empty cursor and an Internal error embedding the decode error; otherwise no error, the envelope's records unchanged, and a cursor that is non-empty exactly when `more` is set and is then the `%d` rendering of the int64 sum limit + offset, which reads back as that sum |
| `Datasource.CursorExample` | pkg/adapter/datasource.go:122-123 | limit 50, offset 100 and `more` give the cursor "150" |
| `Datasource.FirstPageExample` | pkg/adapter/datasource.go:111-129 | two team records with limit 2, offset 0 and `more` give the same records and the cursor "2" |
| `Datasource.FormattedCursorInURL` | pkg/adapter/datasource.go:53 | a cursor written by `%d` is the raw offset parameter of the next URL and reads back as the number written |
| `Datasource.CursorRoundTrip` | pkg/adapter/datasource.go:53-126 | a non-empty cursor fed back as the next request's cursor is the offset parameter of the next URL and reads back as limit + offset (the plain sum whenever it fits in int64) |
| `Datasource.GetPage` | pkg/adapter/datasource.go:50-109 | a URL that does not make a request or a failed send gives Internal and no response; a non-200 status gives that status and the Retry-After value with no objects, an empty cursor and no error; an unreadable body gives DatasourceFailed; otherwise ParseResponse's error, or its objects and cursor with status 200 |
| `Validation.FirstFailing` | pkg/adapter/validation.go:16-54 | the fail-fast search returns the position of the earliest failing check, and none exactly when every check passes |
| `Validation.ValidateGetPageRequest` | pkg/adapter/validation.go:16-54 | the result is the error of the earliest failing check in the order config, auth, entity, child entities, page size; it is None exactly when all five pass |
| `Validation.InvalidConfigRejected` | pkg/adapter/validation.go:17-22 | a config that fails its own validation gives INVALID_DATASOURCE_CONFIG with the validator's error text in the message |
| `Validation.MissingTokenRejected` | pkg/adapter/validation.go:24-30 | with a valid config, missing auth or an empty HTTPAuthorization gives INVALID_DATASOURCE_CONFIG |
| `Validation.UnknownEntityRejected` | pkg/adapter/validation.go:32-37 | with config and auth valid, an entity ID other than "teams" gives INVALID_ENTITY_CONFIG |
| `Validation.ChildEntitiesRejected` | pkg/adapter/validation.go:39-44 | with the earlier checks passing, requested child entities give INVALID_ENTITY_CONFIG even for "teams" |
| `Validation.PageSizeBound` | pkg/adapter/validation.go:46-51 | with the earlier checks passing, the request is accepted exactly when the page size is at most 100 (so 100, zero and negative sizes pass) and otherwise rejected with INVALID_PAGE_REQUEST_CONFIG |
| `Adapter.NormalizeAddress` | pkg/adapter/adapter.go:36-38 | the result starts with "https://", equals the address exactly when the address already started so, and is "https://" + address otherwise |
| `Adapter.NormalizeAddressIdempotent` | pkg/adapter/adapter.go:36-38 | forcing https twice is the same as once |
| `Adapter.ClientRequestOf` | pkg/adapter/adapter.go:39-47 | the datasource request copies the address, the HTTPAuthorization token, page size, entity external ID and cursor unchanged |
| `Adapter.ConvertFailure` | pkg/adapter/adapter.go:73-79 | a conversion failure is reported as Internal with the converter's error text embedded in the message |
| `Adapter.Outcome` | pkg/adapter/adapter.go:49-88 | a client error is answered as is; otherwise a classifier error; otherwise a conversion failure as Internal; the answer is a page exactly when client, classifier and converter all succeed, and the page then holds the converted objects and the client's cursor unchanged |
| `Adapter.Adapter.constructor` | pkg/adapter/adapter.go:18-22 | the adapter holds the client it was given |
| `Adapter.Adapter.GetPage` | pkg/adapter/adapter.go:24-30 | a rejected request is answered with the validation error, no collaborator is called and the address is untouched; an accepted one has its address normalised, calls the client first with the copied request, and gets the fetch outcome |
| `Adapter.Adapter.RequestPageFromDatasource` | pkg/adapter/adapter.go:32-89 | the address is rewritten in place to start with https; the answer is Outcome of the client's reply to the copied request; the trace shows only the client called on a client error, the client then the classifier on a classifier error, and the converter called last and only when the classifier reported nothing |

## Left out

- `Datasource.OffsetCarriesCursor`: the cursor is inserted into the URL without escaping, and `OffsetParameter` reads the raw text after the last "&" without query decoding; a cursor containing "&", "#", "%" or "+" would not come back unchanged from a real query reader, so the lemma is stated only for cursors of digits and minus signs, which covers every cursor the connector issues.
- On a non-200 status the source returns before `defer res.Body.Close()`, so that response body is never closed; the model has no resources, so this leak is not represented.
- The entity descriptor passed to the converter is reduced to its external ID and child entities; the converter in the source also sees the requested attributes, so the model's converter cannot depend on them.
- Process plumbing (flag parsing, the gRPC server, the TCP listener, logging in cmd/adapter/main.go) has no stateable logic.
- The 5-second per-call deadline, the 30-second client timeout and context cancellation are timing concerns; a deadline that expires shows up only as a failed send in `Transport`.
- `json.Unmarshal` is a `Decoder` that returns an envelope or the error's text. A body of JSON `null` decodes to a nil envelope in the source, and reading `data.More` then dereferences nil; the model's decoder always yields an envelope, so that case is not modelled.
- Go distinguishes a nil slice from an empty one; the model uses the empty sequence for both (the error paths' nil objects and a missing `teams` field).
- `Datasource.GetPage`: Retry-After is looked up by exact name in the response headers, assuming the transport delivers canonical header keys as `net/http` does; header-name canonicalisation itself is not modelled.
- `web.HTTPError`, `web.ConvertJSONObjectList` (with its field-name and date-time format options) and `Config.Validate` are framework functions and appear only as uninterpreted parameters.
- JSON numbers are carried as mathematical reals; no floating-point behaviour is modelled.
- `Client.Reply`: the `(*Response, *framework.Error)` pair is a sum type, so a client returning neither or both is not modelled; the source's own client never does either, and the adapter reads the error first.
- `Framework.Request`: only `Address` is mutable in the model; the other request fields are constants, since the core never writes them.
- `Adapter.Adapter.RequestPageFromDatasource` requires auth to be present, as the source dereferences `Auth` there; `Adapter.Adapter.GetPage` guarantees it through validation.
- The framework's `Request` carries more than GetPage reads (entity attributes, ordering, basic-auth credentials); only the fields the core inspects are modelled.
