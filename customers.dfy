/** The customers resource: `get` by id, with a local check for an empty id, and a cursor-paginated `list`. */
module Customers {
  import opened Wrappers
  import opened Json
  import opened Errors
  import opened Client

  const CustomerIdRequired: string := "Customer ID is required"
  const CollectionPath: string := "/v1/customers/"

  /**
   * The `list` parameters; the default `{}` is the record with every field
   * absent. The parameter type also admits `skip`, which `list` never reads.
   */
  datatype CustomerListParams = CustomerListParams(
    search: Option<string>,
    limit: Option<int>,
    startingAfter: Option<string>,
    endingBefore: Option<string>,
    skip: Option<int>)

  /** `get(customerId)`: an empty id throws before any request; otherwise one GET on the customer's path. */
  function Get(client: CheckoutPageClient, customerId: string, server: FetchRequest -> Response): (c: Call<JVal>)
    ensures customerId == "" ==> c == Call([], Failure(PlainError(CustomerIdRequired)))
    ensures customerId != "" ==> |c.sent| == 1
    ensures customerId != "" ==> c.sent[0].httpMethod == GET && c.sent[0].url.path == "/v1/customers/" + customerId
    ensures customerId != "" ==> c.sent[0].url.searchParams == [] && c.sent[0].body == None
    ensures customerId != "" ==> c.outcome == HandleResponse(server(c.sent[0]))
  {
    if customerId == "" then Call([], Failure(PlainError(CustomerIdRequired)))
    else Perform(client, RequestOptions(GET, CollectionPath + customerId, None, None), server)
  }

  /** The query record literal of `list`. */
  function ListQuery(args: CustomerListParams): (q: Query)
    ensures Keys(q) == ["search", "limit", "starting_after", "ending_before"]
  {
    [ ("search", Given(args.search)),
      ("limit", GivenNumber(args.limit)),
      ("starting_after", Given(args.startingAfter)),
      ("ending_before", Given(args.endingBefore)) ]
  }

  /** The URL query of `list` holds exactly the supplied parameters, in declaration order, `limit` in decimal. */
  lemma ListSearchParams(args: CustomerListParams)
    ensures SearchParams(ListQuery(args)) ==
      Present("search", args.search) + Present("limit", ShowNumber(args.limit))
      + Present("starting_after", args.startingAfter) + Present("ending_before", args.endingBefore)
  {
    SearchParamsOf4(("search", Given(args.search)), ("limit", GivenNumber(args.limit)), ("starting_after", Given(args.startingAfter)), ("ending_before", Given(args.endingBefore)));
    EntryParamsOfGiven("search", args.search);
    EntryParamsOfGivenNumber("limit", args.limit);
    EntryParamsOfGiven("starting_after", args.startingAfter);
    EntryParamsOfGiven("ending_before", args.endingBefore);
  }

  /** `list(args)`: one GET on the collection path carrying the supplied parameters; the response is returned as handled. */
  function List(client: CheckoutPageClient, args: CustomerListParams, server: FetchRequest -> Response): (c: Call<JVal>)
    ensures |c.sent| == 1
    ensures c.sent[0].httpMethod == GET && c.sent[0].url.path == "/v1/customers/" && c.sent[0].body == None
    ensures c.sent[0].url.searchParams ==
      Present("search", args.search) + Present("limit", ShowNumber(args.limit))
      + Present("starting_after", args.startingAfter) + Present("ending_before", args.endingBefore)
    ensures c.outcome == HandleResponse(server(c.sent[0]))
  {
    ListSearchParams(args);
    Perform(client, RequestOptions(GET, CollectionPath, None, Some(ListQuery(args))), server)
  }

  /** A supplied `skip` is dropped: no parameter of that name is ever sent, and the query is the same as without it. */
  lemma ListNeverSendsSkip(client: CheckoutPageClient, args: CustomerListParams, server: FetchRequest -> Response)
    ensures forall p :: p in List(client, args, server).sent[0].url.searchParams ==> p.0 != "skip"
    ensures List(client, args, server) == List(client, args.(skip := None), server)
  {
    var entries := ListQuery(args);
    forall p | p in SearchParams(entries)
      ensures p.0 != "skip"
    {
      SearchParamsMember(entries, p.0, p.1);
      var i :| 0 <= i < |entries| && entries[i].0 == p.0 && !entries[i].1.Undefined? && QueryString(entries[i].1) == p.1;
      assert entries[i].0 == Keys(entries)[i];
    }
  }
}
