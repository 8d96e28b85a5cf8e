/**
 * The shared request pipeline: client construction, URL and header
 * construction, conditional body, and the classification of a response
 * into a payload or a taxonomy error. The HTTP exchange itself is the
 * parameter `server`: the response the server gives to a request.
 */
module Client {
  import opened Wrappers
  import opened Json
  import opened Errors
  import Decimal

  const DefaultBaseUrl: string := "https://api.checkoutpage.com"
  const UserAgent: string := "@checkoutpage/sdk/0.1.0"
  const JsonMediaType: string := "application/json"
  const FallbackMessage: string := "An unexpected error occurred"
  const ApiKeyRequired: string := "API key is required"

  datatype ClientOptions = ClientOptions(apiKey: string, baseUrl: Option<string>)

  /** A constructed client; both fields are set once and never change. */
  datatype CheckoutPageClient = CheckoutPageClient(apiKey: string, baseUrl: string)

  datatype Method = GET | POST | PUT | DELETE | PATCH

  /** A query value: a string, a number, a boolean, or `undefined`. */
  datatype QVal = QStr(s: string) | QNum(n: int) | QBool(b: bool) | Undefined

  /**
   * The query as `Object.entries` lists it: key/value pairs in iteration
   * order. Every wrapper's record literal has distinct, non-numeric keys, so
   * this is the order in which the literal declares them.
   */
  type Query = seq<(string, QVal)>

  datatype RequestOptions = RequestOptions(httpMethod: Method, path: string, body: Option<JVal>, query: Option<Query>)

  /** The request URL: the path resolved against the base, then the search parameters in order. */
  datatype Url = Url(base: string, path: string, searchParams: seq<(string, string)>)

  /** What is handed to `fetch`; `body` is the value given to `JSON.stringify`, when one is attached. */
  datatype FetchRequest = FetchRequest(url: Url, httpMethod: Method, headers: map<string, string>, body: Option<JVal>)

  /**
   * A response: its status, its content-type header, and what `json()` and
   * `text()` would produce for its body (`None` when that read fails).
   */
  datatype Response = Response(status: int, contentType: Option<string>, json: Option<JVal>, text: Option<string>)

  /** The observable effect of one SDK call: the requests it sent, in order, and what it returned or threw. */
  datatype Call<T> = Call(sent: seq<FetchRequest>, outcome: Result<T, Thrown>)

  /** Every constructed client has a non-empty key and a non-empty base URL. */
  predicate Valid(client: CheckoutPageClient) {
    client.apiKey != "" && client.baseUrl != ""
  }

  /** The constructor: a missing key throws; a missing or empty base URL falls back to the production origin. */
  function New(options: ClientOptions): (r: Result<CheckoutPageClient, Thrown>)
    ensures r.Failure? <==> options.apiKey == ""
    ensures r.Failure? ==> r.error == PlainError(ApiKeyRequired)
    ensures r.Success? ==> Valid(r.value) && r.value.apiKey == options.apiKey
    ensures r.Success? && (options.baseUrl == None || options.baseUrl == Some("")) ==> r.value.baseUrl == DefaultBaseUrl
    ensures r.Success? && options.baseUrl.Some? && options.baseUrl.value != "" ==> r.value.baseUrl == options.baseUrl.value
  {
    if options.apiKey == "" then Failure(PlainError(ApiKeyRequired))
    else
      var base := if options.baseUrl.Some? && options.baseUrl.value != "" then options.baseUrl.value else DefaultBaseUrl;
      Success(CheckoutPageClient(options.apiKey, base))
  }

  // ---------------------------------------------------------------------
  // Query construction

  /**
   * `String(value)`: a string as is, a number in decimal, a boolean as
   * "true"/"false", and `undefined` as the literal word.
   */
  function QueryString(v: QVal): (s: string)
    ensures v.QStr? ==> s == v.s
    ensures v.QNum? ==> Decimal.Parse(s) == Some(v.n)
    ensures v.QBool? ==> (s == "true" <==> v.b) && (s == "false" <==> !v.b)
    ensures v.Undefined? ==> s == "undefined"
  {
    match v
    case QStr(s) => s
    case QNum(n) => Decimal.ShowRoundTrip(n); Decimal.Show(n)
    case QBool(b) => if b then "true" else "false"
    case Undefined => "undefined"
  }

  /** The search parameters one entry contributes: none when its value is `undefined`. */
  function EntryParams(entry: (string, QVal)): seq<(string, string)> {
    if entry.1.Undefined? then [] else [(entry.0, QueryString(entry.1))]
  }

  /** The search parameters a query produces, in entry order. */
  function SearchParams(entries: Query): seq<(string, string)> {
    if entries == [] then [] else EntryParams(entries[0]) + SearchParams(entries[1..])
  }

  function EntriesOf(query: Option<Query>): Query {
    if query.Some? then query.value else []
  }

  /** Building the search parameters commutes with concatenation, so entry order is kept. */
  lemma {:induction false} SearchParamsAppend(a: Query, b: Query)
    ensures SearchParams(a + b) == SearchParams(a) + SearchParams(b)
    decreases |a|
  {
    if a == [] {
      assert a + b == b;
    } else {
      assert (a + b)[0] == a[0];
      assert (a + b)[1..] == a[1..] + b;
      SearchParamsAppend(a[1..], b);
    }
  }

  /** The parameters of a query are its first entry's followed by the rest's. */
  lemma SearchParamsCons(e: (string, QVal), rest: Query)
    ensures SearchParams([e] + rest) == EntryParams(e) + SearchParams(rest)
  {
    assert ([e] + rest)[1..] == rest;
  }

  /** The parameters of a four-entry query, entry by entry. */
  lemma SearchParamsOf4(a: (string, QVal), b: (string, QVal), c: (string, QVal), d: (string, QVal))
    ensures SearchParams([a, b, c, d]) == EntryParams(a) + EntryParams(b) + EntryParams(c) + EntryParams(d)
  {
    SearchParamsCons(c, [d]);
    SearchParamsCons(b, [c, d]);
    SearchParamsCons(a, [b, c, d]);
    assert [a] + [b, c, d] == [a, b, c, d];
  }

  /** The parameters of a five-entry query, entry by entry. */
  lemma SearchParamsOf5(a: (string, QVal), b: (string, QVal), c: (string, QVal), d: (string, QVal), e: (string, QVal))
    ensures SearchParams([a, b, c, d, e]) == EntryParams(a) + EntryParams(b) + EntryParams(c) + EntryParams(d) + EntryParams(e)
  {
    SearchParamsOf4(a, b, c, d);
    SearchParamsAppend([a, b, c, d], [e]);
    assert [a, b, c, d] + [e] == [a, b, c, d, e];
  }

  /** The parameters of a six-entry query, entry by entry. */
  lemma SearchParamsOf6(a: (string, QVal), b: (string, QVal), c: (string, QVal), d: (string, QVal), e: (string, QVal), f: (string, QVal))
    ensures SearchParams([a, b, c, d, e, f]) ==
      EntryParams(a) + EntryParams(b) + EntryParams(c) + EntryParams(d) + EntryParams(e) + EntryParams(f)
  {
    SearchParamsOf5(a, b, c, d, e);
    SearchParamsAppend([a, b, c, d, e], [f]);
    assert [a, b, c, d, e] + [f] == [a, b, c, d, e, f];
  }

  /**
   * A parameter is in the built query exactly when some entry has that key
   * and a defined value whose string form it is.
   */
  lemma {:induction false} SearchParamsMember(entries: Query, key: string, value: string)
    ensures (key, value) in SearchParams(entries) <==>
      exists i :: 0 <= i < |entries| && entries[i].0 == key && !entries[i].1.Undefined? && QueryString(entries[i].1) == value
    decreases |entries|
  {
    if entries != [] {
      SearchParamsMember(entries[1..], key, value);
      if (key, value) in SearchParams(entries[1..]) {
        var j :| 0 <= j < |entries[1..]| && entries[1..][j].0 == key && !entries[1..][j].1.Undefined? && QueryString(entries[1..][j].1) == value;
        assert entries[j + 1] == entries[1..][j];
      }
      if exists i :: 0 <= i < |entries| && entries[i].0 == key && !entries[i].1.Undefined? && QueryString(entries[i].1) == value {
        var i :| 0 <= i < |entries| && entries[i].0 == key && !entries[i].1.Undefined? && QueryString(entries[i].1) == value;
        if i > 0 {
          assert entries[1..][i - 1] == entries[i];
        }
      }
    }
  }

  /** Only entries with a defined value are serialised, so an `undefined` value never reaches the URL. */
  lemma {:induction false} SearchParamsLength(entries: Query)
    ensures |SearchParams(entries)| <= |entries|
    ensures (forall i :: 0 <= i < |entries| ==> entries[i].1.Undefined?) <==> SearchParams(entries) == []
    decreases |entries|
  {
    if entries != [] {
      SearchParamsLength(entries[1..]);
      if forall i :: 0 <= i < |entries[1..]| ==> entries[1..][i].1.Undefined? {
        if entries[0].1.Undefined? {
          forall i | 0 <= i < |entries| ensures entries[i].1.Undefined? {
            if i > 0 { assert entries[i] == entries[1..][i - 1]; }
          }
        }
      } else {
        var j :| 0 <= j < |entries[1..]| && !entries[1..][j].1.Undefined?;
        assert entries[j + 1] == entries[1..][j];
      }
    }
  }

  /** `buildUrl`: resolve the path against the base, then append every defined query entry in order. */
  method BuildUrl(client: CheckoutPageClient, path: string, query: Option<Query>) returns (url: Url)
    ensures url == Url(client.baseUrl, path, SearchParams(EntriesOf(query)))
  {
    var params: seq<(string, string)> := [];
    if query.Some? {
      var entries := query.value;
      var i := 0;
      while i < |entries|
        invariant 0 <= i <= |entries|
        invariant params == SearchParams(entries[..i])
      {
        var (key, value) := entries[i];
        if value != Undefined {
          params := params + [(key, QueryString(value))];
        }
        SearchParamsAppend(entries[..i], [entries[i]]);
        assert entries[..i + 1] == entries[..i] + [entries[i]];
        i := i + 1;
      }
      assert entries[..i] == entries;
    }
    url := Url(client.baseUrl, path, params);
  }

  // ---------------------------------------------------------------------
  // The request sent

  /** The headers of every request. */
  function Headers(apiKey: string): map<string, string> {
    map["Authorization" := "Bearer " + apiKey, "Content-Type" := JsonMediaType, "User-Agent" := UserAgent]
  }

  /** The body attached to a request: the given body when it is truthy, otherwise none. */
  function AttachedBody(body: Option<JVal>): (attached: Option<JVal>)
    ensures attached.Some? <==> body.Some? && Truthy(body.value)
    ensures attached.Some? ==> attached == body
  {
    if body.Some? && Truthy(body.value) then body else None
  }

  /** The request `request(options)` hands to `fetch`. */
  function Dispatch(client: CheckoutPageClient, options: RequestOptions): (req: FetchRequest)
    ensures req.httpMethod == options.httpMethod
    ensures req.url.base == client.baseUrl && req.url.path == options.path
    ensures req.url.searchParams == SearchParams(EntriesOf(options.query))
    ensures req.headers.Keys == {"Authorization", "Content-Type", "User-Agent"}
    ensures req.headers["Authorization"] == "Bearer " + client.apiKey
    ensures req.headers["Content-Type"] == "application/json"
    ensures req.headers["User-Agent"] == "@checkoutpage/sdk/0.1.0"
    ensures req.body.Some? <==> options.body.Some? && Truthy(options.body.value)
    ensures req.body.Some? ==> req.body == options.body
  {
    FetchRequest(
      Url(client.baseUrl, options.path, SearchParams(EntriesOf(options.query))),
      options.httpMethod,
      Headers(client.apiKey),
      AttachedBody(options.body))
  }

  // ---------------------------------------------------------------------
  // Response handling

  predicate StartsWith(s: string, prefix: string) {
    |prefix| <= |s| && s[..|prefix|] == prefix
  }

  /** `s.includes(sub)`: case-sensitive substring search. */
  predicate Contains(s: string, sub: string)
    decreases |s|
  {
    StartsWith(s, sub) || (s != [] && Contains(s[1..], sub))
  }

  /** `sub` occurs in `s` starting at index `i`. */
  predicate OccursAt(s: string, sub: string, i: int) {
    0 <= i && i + |sub| <= |s| && s[i..i + |sub|] == sub
  }

  /** The recursive search finds `sub` exactly when it occurs at some index of `s`. */
  lemma {:induction false} ContainsOccurs(s: string, sub: string)
    ensures Contains(s, sub) <==> exists i :: OccursAt(s, sub, i)
    decreases |s|
  {
    if StartsWith(s, sub) {
      assert OccursAt(s, sub, 0);
    }
    if exists i :: OccursAt(s, sub, i) {
      var i :| OccursAt(s, sub, i);
      if i > 0 {
        assert s[1..][i - 1..i - 1 + |sub|] == s[i..i + |sub|];
        assert OccursAt(s[1..], sub, i - 1);
      }
    }
    if s != [] {
      ContainsOccurs(s[1..], sub);
      if Contains(s[1..], sub) {
        var j :| OccursAt(s[1..], sub, j);
        assert s[1..][j..j + |sub|] == s[j + 1..j + 1 + |sub|];
        assert OccursAt(s, sub, j + 1);
      }
    }
  }

  /** `contentType?.includes('application/json')`: an absent header is not JSON; a present one is JSON iff the media type occurs in it. */
  predicate IsJson(contentType: Option<string>): (json: bool)
    ensures json <==> contentType.Some? && exists i :: OccursAt(contentType.value, JsonMediaType, i)
  {
    if contentType.Some? then ContainsOccurs(contentType.value, JsonMediaType); Contains(contentType.value, JsonMediaType)
    else false
  }

  /** `response.ok`. */
  predicate IsOk(status: int) {
    200 <= status <= 299
  }

  /** The payload: parsed JSON or raw text by content type; a failed read yields `null`. */
  function ReadPayload(response: Response): (data: JVal)
    ensures IsJson(response.contentType) && response.json.Some? ==> data == response.json.value
    ensures !IsJson(response.contentType) && response.text.Some? ==> data == JStr(response.text.value)
    ensures (if IsJson(response.contentType) then response.json.None? else response.text.None?) ==> data == JNull
  {
    if IsJson(response.contentType) then
      (if response.json.Some? then response.json.value else JNull)
    else
      (if response.text.Some? then JStr(response.text.value) else JNull)
  }

  /**
   * `extractErrorMessage`: a string `message` field, else a string `error`
   * field, else the fallback. Total on text, arrays and `null`.
   */
  function ExtractErrorMessage(data: JVal): (message: string)
    ensures HasStringField(data, "message") ==> message == data.fields["message"].s
    ensures !HasStringField(data, "message") && HasStringField(data, "error") ==> message == data.fields["error"].s
    ensures !HasStringField(data, "message") && !HasStringField(data, "error") ==> message == FallbackMessage
  {
    if HasStringField(data, "message") then data.fields["message"].s
    else if HasStringField(data, "error") then data.fields["error"].s
    else FallbackMessage
  }

  /** The error a non-2xx status raises, with the message extracted from the payload. */
  function Classify(status: int, data: JVal): (e: CheckoutPageError)
    ensures e.message == ExtractErrorMessage(data)
    ensures e.AuthenticationError? <==> status == 401 || status == 403
    ensures e.NotFoundError? <==> status == 404
    ensures e.ConflictError? <==> status == 409
    ensures e.ValidationError? <==> status == 400 || status == 422
    ensures e.RateLimitError? <==> status == 429
    ensures e.APIError? <==> status !in {400, 401, 403, 404, 409, 422, 429}
    ensures e.APIError? ==> e.statusCode == status && e.response == Some(data)
  {
    var message := ExtractErrorMessage(data);
    if status == 401 || status == 403 then NewAuthenticationError(Some(message))
    else if status == 404 then NewNotFoundError(Some(message))
    else if status == 409 then ConflictError(message)
    else if status == 400 || status == 422 then NewValidationError(Some(message))
    else if status == 429 then NewRateLimitError(Some(message))
    else NewAPIError(message, status, Some(data))
  }

  /** `handleResponse`: a 2xx status returns the payload unchanged; any other throws exactly one taxonomy error. */
  function HandleResponse(response: Response): (r: Result<JVal, Thrown>)
    ensures IsOk(response.status) ==> r == Success(ReadPayload(response))
    ensures !IsOk(response.status) ==> r.Failure? && r.error.Sdk?
    ensures !IsOk(response.status) ==> r.error.error == Classify(response.status, ReadPayload(response))
  {
    var data := ReadPayload(response);
    if IsOk(response.status) then Success(data)
    else Failure(Sdk(Classify(response.status, data)))
  }

  /** What `request(options)` does against `server`: one request sent, its response handled. */
  function Perform(client: CheckoutPageClient, options: RequestOptions, server: FetchRequest -> Response): (c: Call<JVal>)
    ensures |c.sent| == 1
    ensures c.sent[0].httpMethod == options.httpMethod
    ensures c.sent[0].url == Url(client.baseUrl, options.path, SearchParams(EntriesOf(options.query)))
    ensures c.sent[0].headers == Headers(client.apiKey)
    ensures c.sent[0].body == AttachedBody(options.body)
    ensures c.outcome.Success? <==> IsOk(server(c.sent[0]).status)
    ensures c.outcome.Failure? ==> c.outcome.error.Sdk?
  {
    var req := Dispatch(client, options);
    Call([req], HandleResponse(server(req)))
  }

  /** `request`: build the URL, the headers and the optional body, send, and handle the response. */
  method Request(client: CheckoutPageClient, options: RequestOptions, server: FetchRequest -> Response) returns (c: Call<JVal>)
    ensures c == Perform(client, options, server)
    ensures |c.sent| == 1 && c.sent[0] == Dispatch(client, options)
    ensures c.outcome == HandleResponse(server(c.sent[0]))
  {
    var url := BuildUrl(client, options.path, options.query);
    var headers := Headers(client.apiKey);
    var body: Option<JVal> := None;
    if options.body.Some? && Truthy(options.body.value) {
      body := options.body;
    }
    var req := FetchRequest(url, options.httpMethod, headers, body);
    var response := server(req);
    c := Call([req], HandleResponse(response));
  }

  // ---------------------------------------------------------------------
  // Properties of the pipeline

  /** A body that cannot be read, on an error status, still yields the status's kind with the fallback message. */
  lemma UnreadableErrorBodyFallsBack(response: Response)
    requires !IsOk(response.status)
    requires if IsJson(response.contentType) then response.json.None? else response.text.None?
    ensures HandleResponse(response).Failure?
    ensures HandleResponse(response).error.Sdk?
    ensures HandleResponse(response).error.error.message == FallbackMessage
    ensures response.status == 400 ==> HandleResponse(response) == Failure(Sdk(ValidationError(FallbackMessage)))
    ensures response.status !in {400, 401, 403, 404, 409, 422, 429} ==>
      HandleResponse(response) == Failure(Sdk(APIError(FallbackMessage, response.status, Some(JNull))))
  {
  }

  /** A text body never supplies a message: text errors always carry the fallback. */
  lemma TextErrorBodyFallsBack(response: Response)
    requires !IsOk(response.status) && !IsJson(response.contentType)
    ensures HandleResponse(response).error.error.message == FallbackMessage
  {
  }

  /** A JSON content type with parameters is still JSON. */
  lemma CharsetContentTypeIsJson()
    ensures IsJson(Some("application/json; charset=utf-8"))
  {
    assert StartsWith("application/json; charset=utf-8", JsonMediaType);
  }

  /** `SearchParams` of an entry built from an optional string is that string under its key, or nothing. */
  lemma EntryParamsOfGiven(key: string, v: Option<string>)
    ensures EntryParams((key, Given(v))) == Present(key, v)
  {
  }

  /** `SearchParams` of an entry built from an optional number is its decimal string, or nothing. */
  lemma EntryParamsOfGivenNumber(key: string, n: Option<int>)
    ensures EntryParams((key, GivenNumber(n))) == Present(key, ShowNumber(n))
  {
  }

  // ---------------------------------------------------------------------
  // Helpers for the resource wrappers

  /** An optional string parameter as a query value. */
  function Given(v: Option<string>): QVal {
    if v.Some? then QStr(v.value) else Undefined
  }

  /** `n?.toString()`. */
  function ShowNumber(n: Option<int>): Option<string> {
    if n.Some? then Some(Decimal.Show(n.value)) else None
  }

  /** An optional number parameter as a query value, stringified by the wrapper. */
  function GivenNumber(n: Option<int>): QVal {
    Given(ShowNumber(n))
  }

  /** The search parameter a supplied value contributes. */
  function Present(key: string, v: Option<string>): seq<(string, string)> {
    if v.Some? then [(key, v.value)] else []
  }

  /** The keys of a query, in order. */
  function Keys(q: Query): seq<string> {
    seq(|q|, i requires 0 <= i < |q| => q[i].0)
  }
}
