# Checkout Page SDK client, modelled in Dafny

This project models the core of the Checkout Page JavaScript SDK, a thin
client for the Checkout Page REST API. It covers:

- The client object (`CheckoutPageClient`). Its constructor validates the
  API key and picks the base URL.
- `request`. It builds the URL with its query string, sets the three fixed
  headers, attaches a JSON body only when the body is truthy, sends one
  fetch, and turns the response into a value or a typed error.
- The error hierarchy (`AuthenticationError`, `NotFoundError`,
  `RateLimitError`, `ValidationError`, `APIError`, plus the `ConflictError`
  that the client throws on 409).
- The resource wrappers that sit over `request`:
  - coupons `list` / `create`
  - customers `get` / `list`
  - bookings, payments and subscriptions `list`
  - tickets `validate`

The network is a parameter. `fetch` becomes a total function
`server: FetchRequest -> Response`, and every SDK call yields a
`Call(sent, outcome)`. `sent` lists the requests actually issued, in order.
`outcome` is either the resolved value or the thrown error (`Thrown`: an SDK
error, a plain `Error`, or a `TypeError`). So "no request is issued" is the
statement `sent == []`.

JSON values are the datatype `Json.JVal`, with integer numbers. A text
response body becomes a `JStr`. A body that cannot be read becomes `JNull`,
as the source's `catch { data = null }` does.

Form of the model:

- `buildUrl` is an imperative loop over the query entries (`Client.BuildUrl`),
  proved against the specification function `Client.SearchParams`.
- `request` is the method `Client.Request`, proved against the functions
  `Client.Dispatch` (what is sent) and `Client.HandleResponse` (what comes
  back). `Client.Perform` is its functional counterpart, used by the pure
  wrappers.
- The coupon create body is built step by step in a map, as the source
  does, by the methods `Coupons.CoreBody`, `Coupons.AddOptionalFields` and
  `Coupons.AddDiscountFields`. They are specified by the predicate
  `Coupons.IsCreateBody`, and that predicate determines the body uniquely.
- JavaScript's `Number.prototype.toString` on the integers the list
  wrappers pass (`limit`, `skip`) is `Decimal.Show`. It is proved to round
  trip through `Decimal.Parse`.

## Model

| member | source | states |
|---|---|---|
| Client.New | js/src/client.ts:26-33 | Construction fails, with `Error('API key is required')`, exactly when the API key is empty. On success the client keeps the key. Its base URL is the given one, or `https://api.checkoutpage.com` when that option is absent or empty. |
| Client.BuildUrl | js/src/client.ts:57-72 | The loop yields a URL on the client's base URL with the given path. Its search parameters are `SearchParams` of the query entries, and there are none when the query is absent. |
| Client.QueryString | js/src/client.ts:66 | `String(value)`: a string is sent as is, a number as a decimal string that parses back to it, a boolean as "true" or "false", and `undefined` as the word "undefined". |
| Client.SearchParamsAppend | js/src/client.ts:63-69 | Appending entries to the `Object.entries` list appends their parameters, so the parameters follow the entries' iteration order. |
| Client.SearchParamsMember | js/src/client.ts:63-69 | A pair (k, s) is sent iff some entry has key k and a defined value whose string is s. |
| Client.SearchParamsLength | js/src/client.ts:63-69 | At most one parameter is sent per entry. No parameter is sent iff every value is `undefined`. |
| Json.Truthy | js/src/client.ts:49 | A value is falsy exactly when it is `null`, `false`, `0` or `""`. Every array and every object, empty ones included, is truthy. |
| Client.AttachedBody | js/src/client.ts:49-51 | A body is attached iff it is present and truthy, and it is then that body. `null`, `false`, `0` and `""` are dropped. |
| Client.Dispatch | js/src/client.ts:35-51 | The fetch request uses the options' method and the built URL. Its headers are exactly `Authorization: Bearer <key>`, `Content-Type: application/json` and `User-Agent: @checkoutpage/sdk/0.1.0`. It carries the body iff that body is truthy. |
| Client.ReadPayload | js/src/client.ts:74-83 | A JSON content type reads JSON; other content types read text. An unreadable body yields `null`. |
| Client.ContainsOccurs | js/src/client.ts:76 | The recursive substring search holds exactly when the searched string occurs at some index. |
| Client.IsJson | js/src/client.ts:75-76 | A response is read as JSON iff it has a content-type header and `application/json` occurs somewhere in it, case-sensitively. |
| Client.ExtractErrorMessage | js/src/client.ts:109-119 | A string `message` field comes first, then a string `error` field. Any other value, including non-objects, gives "An unexpected error occurred". |
| Client.Classify | js/src/client.ts:85-103 | The error carries the extracted message. 401/403 → AuthenticationError, 404 → NotFoundError, 409 → ConflictError, 400/422 → ValidationError, 429 → RateLimitError, each as an iff. Every other status → APIError, carrying that status and the data read. |
| Client.HandleResponse | js/src/client.ts:74-107 | A 2xx status resolves to the payload read. Any other status throws the error `Classify` selects for that status and payload. |
| Client.Perform | js/src/client.ts:35-55 | The functional form of `request` that every wrapper uses. It sends one request with the options' method, the URL built from the base URL, the path and the query, the three fixed headers and the attached body. It resolves exactly when the reply's status is 2xx, and otherwise throws an SDK error. |
| Client.Request | js/src/client.ts:35-55 | Exactly one fetch is issued, and it is `Dispatch` of the options. The outcome is `HandleResponse` of the server's reply to it. |
| Client.UnreadableErrorBodyFallsBack | js/src/client.ts:78-118 | On an error status with an unreadable body, the thrown error carries the fallback message. 400 gives a ValidationError. An unlisted status gives an APIError with `response` null. |
| Client.TextErrorBodyFallsBack | js/src/client.ts:109-118 | A non-JSON error body never supplies the message. |
| Client.CharsetContentTypeIsJson | js/src/client.ts:75-76 | `application/json; charset=utf-8` is treated as JSON. |
| Errors.NewAuthenticationError | js/src/errors.ts:9-15 | Builds an AuthenticationError with the supplied message, or "Authentication failed. Please check your API key." when the message is omitted. |
| Errors.NewNotFoundError | js/src/errors.ts:17-23 | Builds a NotFoundError with the supplied message, or "The requested resource was not found.". |
| Errors.NewRateLimitError | js/src/errors.ts:25-31 | Builds a RateLimitError with the supplied message, or "Rate limit exceeded. Please try again later.". |
| Errors.NewValidationError | js/src/errors.ts:33-39 | Builds a ValidationError with the supplied message, or "Validation failed.". |
| Errors.NewAPIError | js/src/errors.ts:41-52 | Builds an APIError that keeps the message, the status code and the response. |
| Errors.NameIdentifiesKind | js/src/errors.ts:1-52 | Two errors have the same `name` iff they are of the same class. |
| Errors.SuppliedMessageReplacesDefault | js/src/errors.ts:10-34 | A supplied message always replaces the class's default. |
| Decimal.Show | js/src/resources/payments/payments.ts:12-13 | `n.toString()` for an integer is never empty. It starts with '-' exactly when n is negative. |
| Decimal.DigitsWellFormed | js/src/resources/bookings/bookings.ts:10 | The decimal digits of a natural number are non-empty, are all digits, and have no leading zero. |
| Decimal.DigitsRoundTrip | js/src/resources/bookings/bookings.ts:10 | Reading back the digits of a natural number gives that number. |
| Decimal.ShowRoundTrip | js/src/resources/payments/payments.ts:12-13 | Parsing `n.toString()` gives n back, for every integer n. |
| Decimal.ShowInjective | js/src/resources/payments/payments.ts:12-13 | Distinct integers are sent as distinct strings. |
| Decimal.ShowWellFormed | js/src/resources/payments/payments.ts:12-13 | `n.toString()` is an optional '-' followed by digits. It is never the string "undefined", so a given number is never confused with an omitted one. |
| Decimal.ShowExamples | js/src/resources/payments/payments.test.ts:252-263 | 0, 5, 10 and -3 are written "0", "5", "10" and "-3". |
| Customers.Get | js/src/resources/customers/customers.ts:7-16 | An empty id throws `Error('Customer ID is required')` and issues no request. Otherwise one GET is sent to `/v1/customers/<id>`, with no query and no body, and its response is handled. |
| Customers.ListQuery | js/src/resources/customers/customers.ts:19-24 | The query has the keys `search`, `limit`, `starting_after`, `ending_before`, in that order. |
| Customers.ListSearchParams | js/src/resources/customers/customers.ts:18-24 | Exactly the supplied arguments are sent, in that key order, with `limit` as its decimal string. |
| Customers.List | js/src/resources/customers/customers.ts:18-31 | One GET is sent to `/v1/customers/` with exactly the supplied parameters, and its response is handled. |
| Customers.ListNeverSendsSkip | js/src/resources/customers/customers.ts:19-24 | The parameter type admits `skip`, but `list` never reads it. No `skip` parameter is sent, and the call is the same as without it. |
| Coupons.ListQuery | js/src/resources/coupons/coupons.ts:13-18 | The query has the keys `search`, `limit`, `starting_after`, `ending_before`, in that order. |
| Coupons.ListSearchParams | js/src/resources/coupons/coupons.ts:12-18 | Exactly the supplied arguments are sent, in key order. |
| Coupons.List | js/src/resources/coupons/coupons.ts:12-25 | One GET is sent to `/v1/coupons/` with exactly the supplied parameters, and its response is handled. |
| Coupons.ListWithoutArgumentsSendsNoQuery | js/src/resources/coupons/coupons.ts:12-25 | With all-absent arguments, the URL has no query string. |
| Coupons.CoreBody | js/src/resources/coupons/coupons.ts:28-36 | The body has `label`, `code` and `duration`. It has `durationInMonths` iff the duration is repeating, and nothing else. |
| Coupons.AddOptionalFields | js/src/resources/coupons/coupons.ts:38-49 | It adds each of `appliesToSetupFee`, `pageIds`, `maxRedemptions` and `redeemBy` iff that field is defined, and the core fields still hold. |
| Coupons.AddDiscountFields | js/src/resources/coupons/coupons.ts:51-56 | It adds `amountOff` and `currency` for an amount discount, and `percentOff` otherwise. The result is a complete create body. |
| Coupons.CreateBody | js/src/resources/coupons/coupons.ts:27-56 | The body built meets `IsCreateBody`: each key is present iff the source's branch sets it, and then holds the parameter's value. |
| Coupons.Create | js/src/resources/coupons/coupons.ts:27-63 | One POST is sent to `/v1/coupons/`, with no query. It is exactly what `request` dispatches for these options, so it goes to the client's base URL with the three fixed headers. Its body is an object meeting `IsCreateBody`, and the response is handled. |
| Coupons.CreateBodyDetermined | js/src/resources/coupons/coupons.ts:27-56 | Any two maps meeting `IsCreateBody` for the same parameters are equal, so the body is a function of the parameters. |
| Coupons.AmountOnceBody | js/src/resources/coupons/coupons.test.ts:177-221 | A one-off amount coupon with no optional fields sends exactly label, code, duration "once", amountOff and currency. |
| Coupons.PercentRepeatingBody | js/src/resources/coupons/coupons.ts:34-56 | A repeating percent coupon with no optional fields sends exactly label, code, duration "repeating", durationInMonths and percentOff. |
| Bookings.ListQuery | js/src/resources/bookings/bookings.ts:8-15 | The query has the keys `search`, `limit`, `starting_after`, `ending_before`, `status`, `pageId`, in that order. |
| Bookings.ListSearchParams | js/src/resources/bookings/bookings.ts:7-15 | Exactly the supplied arguments are sent, in key order. |
| Bookings.List | js/src/resources/bookings/bookings.ts:7-22 | One GET is sent to `/v1/bookings/` with exactly the supplied parameters, and its response is handled. |
| Bookings.ListWithoutArgumentsSendsNoQuery | js/src/resources/bookings/bookings.test.ts:56-67 | With all-absent arguments, no parameter is sent. |
| Payments.ListQuery | js/src/resources/payments/payments.ts:8-14 | The query has the keys `search`, `status`, `pageId`, `limit`, `skip`, in that order. |
| Payments.ListSearchParams | js/src/resources/payments/payments.ts:7-14 | Exactly the supplied arguments are sent, in key order, with `limit` and `skip` as decimal strings. |
| Payments.List | js/src/resources/payments/payments.ts:7-21 | One GET is sent to `/v1/payments/` with exactly the supplied parameters, and its response is handled. |
| Payments.ListSendsZeroSkip | js/src/resources/payments/payments.test.ts:252-263 | `skip: 0` is sent as `skip=0`, not dropped. |
| Subscriptions.ListQuery | js/src/resources/subscriptions/subscriptions.ts:8-14 | The query has the keys `search`, `pageId`, `status`, `limit`, `skip`, in that order. |
| Subscriptions.ListSearchParams | js/src/resources/subscriptions/subscriptions.ts:7-14 | Exactly the supplied arguments are sent, in key order. |
| Subscriptions.List | js/src/resources/subscriptions/subscriptions.ts:7-21 | One GET is sent to `/v1/subscriptions/` with exactly the supplied parameters, and its response is handled. |
| Subscriptions.ListNeverSendsCursors | js/src/resources/subscriptions/subscriptions.ts:8-14 | Every parameter sent has one of the five query keys, so `starting_after` and `ending_before` are never sent. |
| Tickets.RequestBody | js/src/resources/tickets/tickets.ts:8 | The body is always a truthy object, so it is always attached. It is `{}` when the params are omitted. |
| Tickets.EntriesRoundTrip | js/src/resources/tickets/tickets.ts:8 | Decoding the JSON of a metadata list gives the list back. |
| Tickets.MetadataPassedThrough | js/src/resources/tickets/tickets.test.ts:148-161 | The metadata list, `null` values included, reaches the server exactly as given. |
| Tickets.DataField | js/src/resources/tickets/tickets.ts:16 | Reading `.data` of `null` throws a TypeError. An object's `data` field is returned. Any other value gives `undefined`. |
| Tickets.Validate | js/src/resources/tickets/tickets.ts:7-17 | One POST is sent to `/v1/tickets/validate/<qrCode>`, with no query, that carries the request body. An error from `request` propagates unchanged. A resolved value is unwrapped through `.data`. |
| Tickets.ValidateUnwrapsEnvelope | js/src/resources/tickets/tickets.test.ts:43-55 | A 2xx JSON reply `{data: d}` resolves to `d`. |

## Left out

- Transport: `fetch` itself, network failures and rejected promises, and asynchrony are not modelled. The server is a total function, and a thrown
  fetch is not modelled.
- URL resolution: `new URL(path, baseUrl)` and `url.toString()` are not modelled. The URL is kept as its base, path and ordered search
  parameters. Dot segments, a path that is itself absolute, percent-encoding and the `?`/`#` handling of interpolated ids are not modelled.
- JSON serialisation and parsing: `JSON.stringify` and `response.json()` are not modelled. The body is sent as a `JVal`, and the key order of
  an object body is not modelled, because objects are maps.
- Numbers: JavaScript's floating-point numbers are modelled as integers. `Decimal.Show` is `toString` on integers only. Fractions, `NaN`,
  infinities and the exponent form used from 1e21 up are not modelled.
- `null` argument fields: an optional argument is present or absent (`Option`). A caller that passes `null` where `undefined` is expected,
  e.g. `appliesToSetupFee: null`, which the source forwards, is not modelled.
- Client.BuildUrl: the query is modelled as the list `Object.entries` yields, not as the object itself. An object cannot hold a key twice, and `Object.entries` lists array-index keys ("0", "1", ...) first, in ascending order, before the others in creation order. Neither rule is modelled. The record literals of the wrappers have distinct, non-numeric keys, so neither rule affects them.
- Client.Classify: the 409 branch is modelled as throwing the intended `ConflictError` carrying the message. `js/src/errors.ts` defines no such class, so the text as written cannot do this at run time: a type check rejects the import, a transpile-only build throws a `TypeError` at the `new`, and native ES modules fail to link.
- Coupons.CreateBody: for a repeating duration the source copies `durationInMonths` through an `any` cast, so at runtime it may be missing
  and then serialises to nothing. The model's `Repeating` always carries a number.
- Response typing: the generic `T` of `request<T>` is an unchecked cast in the source. The model returns the `JVal` read.
- Tickets.DataField: the message of the TypeError thrown on a `null` response is engine-specific. The model uses the V8 wording as a
  constant.
- The `CheckoutPageError` base class is never thrown by the core on its own, so it is the common datatype of the subclasses. Its stack and
  prototype set-up are not modelled.
- `response.ok` is modelled as a status in the range 200-299, which is its meaning under the Fetch standard. The status text is not modelled.
- Not part of this model: the package entry point `js/src/index.ts`, the generated `js/src/types.ts`, the integration tests and helpers,
  `scripts/generate-types.ts` and the example scripts.

## Notes on the source

These are places where the source's files disagree with each other. The
model follows the evident intent in each case. None is claimed as a bug
with a counterexample. The first one does change run-time behaviour (see
`Client.Classify` under "## Left out").

- `ConflictError` is imported by `js/src/client.ts:4` and thrown on 409
  (`js/src/client.ts:94-95`), but `js/src/errors.ts` does not define it. The
  model gives it the same shape as the other message-only errors, with
  the name "ConflictError" and no default message. As written, the module
  cannot produce this error: a 409 never yields a `ConflictError`.
- The resources import `CheckoutPageApiClient` from `../../client`
  (e.g. `js/src/resources/bookings/bookings.ts:1`). `js/src/client.ts:22`
  exports the class as `CheckoutPageClient`. The model follows
  `client.ts`, and the import is type-only.
- coupons `list` sends cursor parameters (`js/src/resources/coupons/coupons.ts:13-18`).
  Its unit test expects `skip` (`js/src/resources/coupons/coupons.test.ts:60-66`).
  The model follows the code.
- subscriptions `list` sends `skip` and no cursors
  (`js/src/resources/subscriptions/subscriptions.ts:8-14`). Its unit test
  expects `starting_after`/`ending_before`
  (`js/src/resources/subscriptions/subscriptions.test.ts:42-51`). The model
  follows the code, and `Subscriptions.ListNeverSendsCursors` states the
  consequence.
- A JSON body is attached when it is truthy (`js/src/client.ts:49`), not
  merely when it is present. A body of `0`, `false`, `""` or `null` is
  therefore dropped. The model follows the code.
