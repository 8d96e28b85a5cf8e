/**
 * The tickets resource: `validate` posts the caller's parameters (or `{}`)
 * to the ticket's path and returns the `data` field of the response.
 */
module Tickets {
  import opened Wrappers
  import opened Json
  import opened Errors
  import opened Client

  const ValidatePath: string := "/v1/tickets/validate/"
  /** The `TypeError` a JavaScript engine throws for `null.data`. */
  const NullDataMessage: string := "Cannot read properties of null (reading 'data')"

  /** A metadata entry; a `null` value (`None`) asks the server to delete the key. */
  datatype MetadataEntry = MetadataEntry(key: string, value: Option<string>)

  datatype ValidateTicketParams = ValidateTicketParams(metadata: Option<seq<MetadataEntry>>)

  function EntryJson(e: MetadataEntry): JVal {
    JObj(map["key" := JStr(e.key), "value" := if e.value.Some? then JStr(e.value.value) else JNull])
  }

  function EntriesJson(entries: seq<MetadataEntry>): seq<JVal> {
    if entries == [] then [] else [EntryJson(entries[0])] + EntriesJson(entries[1..])
  }

  /** The parameters as the JSON object that is sent. */
  function ParamsJson(p: ValidateTicketParams): JVal {
    if p.metadata.Some? then JObj(map["metadata" := JArr(EntriesJson(p.metadata.value))]) else JObj(map[])
  }

  /** `params || {}`: the parameters when given, otherwise the empty object; either way a truthy object. */
  function RequestBody(params: Option<ValidateTicketParams>): (body: JVal)
    ensures body.JObj? && Truthy(body)
    ensures params.None? ==> body == JObj(map[])
  {
    if params.Some? then ParamsJson(params.value) else JObj(map[])
  }

  // Reading a sent body back, to state that the metadata passes through unchanged.

  function DecodeEntry(v: JVal): Option<MetadataEntry> {
    if v.JObj? && "key" in v.fields && v.fields["key"].JStr? && "value" in v.fields then
      match v.fields["value"]
      case JStr(s) => Some(MetadataEntry(v.fields["key"].s, Some(s)))
      case JNull => Some(MetadataEntry(v.fields["key"].s, None))
      case _ => None
    else None
  }

  function DecodeEntries(vs: seq<JVal>): Option<seq<MetadataEntry>> {
    if vs == [] then Some([])
    else match (DecodeEntry(vs[0]), DecodeEntries(vs[1..]))
      case (Some(e), Some(rest)) => Some([e] + rest)
      case _ => None
  }

  /** The metadata list a body carries, if any. */
  function DecodeMetadata(body: JVal): Option<seq<MetadataEntry>> {
    if body.JObj? && "metadata" in body.fields && body.fields["metadata"].JArr? then
      DecodeEntries(body.fields["metadata"].items)
    else None
  }

  lemma {:induction false} EntriesRoundTrip(entries: seq<MetadataEntry>)
    ensures DecodeEntries(EntriesJson(entries)) == Some(entries)
    decreases |entries|
  {
    if entries != [] {
      EntriesRoundTrip(entries[1..]);
      var vs := EntriesJson(entries);
      assert vs[0] == EntryJson(entries[0]);
      assert vs[1..] == EntriesJson(entries[1..]);
      assert DecodeEntry(vs[0]) == Some(entries[0]);
      assert [entries[0]] + entries[1..] == entries;
    }
  }

  /** The metadata list, `null` values included, reaches the server exactly as the caller gave it. */
  lemma MetadataPassedThrough(params: Option<ValidateTicketParams>)
    ensures DecodeMetadata(RequestBody(params)) == if params.Some? then params.value.metadata else None
  {
    if params.Some? && params.value.metadata.Some? {
      EntriesRoundTrip(params.value.metadata.value);
    }
  }

  /** `response.data`: a field read that throws on `null` and gives `undefined` (`None`) when the field is missing. */
  function DataField(v: JVal): (r: Result<Option<JVal>, Thrown>)
    ensures r.Failure? <==> v.JNull?
    ensures r.Failure? ==> r.error == TypeError(NullDataMessage)
    ensures v.JObj? && "data" in v.fields ==> r == Success(Some(v.fields["data"]))
    ensures !v.JNull? && !(v.JObj? && "data" in v.fields) ==> r == Success(None)
  {
    match v
    case JNull => Failure(TypeError(NullDataMessage))
    case JObj(fields) => Success(if "data" in fields then Some(fields["data"]) else None)
    case _ => Success(None)
  }

  /** `validate(qrCode, params)`: one POST of the body to the ticket's path; the `data` envelope is unwrapped. */
  function Validate(client: CheckoutPageClient, qrCode: string, params: Option<ValidateTicketParams>, server: FetchRequest -> Response): (c: Call<Option<JVal>>)
    ensures |c.sent| == 1
    ensures c.sent[0].httpMethod == POST && c.sent[0].url.path == "/v1/tickets/validate/" + qrCode
    ensures c.sent[0].url.searchParams == [] && c.sent[0].body == Some(RequestBody(params))
    ensures HandleResponse(server(c.sent[0])).Failure? ==> c.outcome == Failure(HandleResponse(server(c.sent[0])).error)
    ensures HandleResponse(server(c.sent[0])).Success? ==> c.outcome == DataField(HandleResponse(server(c.sent[0])).value)
  {
    var call := Perform(client, RequestOptions(POST, ValidatePath + qrCode, Some(RequestBody(params)), None), server);
    Call(call.sent, match call.outcome
      case Success(response) => DataField(response)
      case Failure(e) => Failure(e))
  }

  /** A 2xx JSON response `{data: d}` yields `d` itself. */
  lemma ValidateUnwrapsEnvelope(client: CheckoutPageClient, qrCode: string, params: Option<ValidateTicketParams>, server: FetchRequest -> Response, d: JVal)
    requires var response := server(Validate(client, qrCode, params, server).sent[0]);
      IsOk(response.status) && IsJson(response.contentType) && response.json == Some(JObj(map["data" := d]))
    ensures Validate(client, qrCode, params, server).outcome == Success(Some(d))
  {
  }
}
